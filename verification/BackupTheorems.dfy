/** What the backups have after every run of the primary and its backups down to the bytes between them. */
module BackupTheorems {
  import opened Limits
  import opened SessionTable
  import opened SessionRuns
  import opened Disk
  import opened Cluster
  import opened ClusterLocks
  import opened ClusterLogs
  import opened ClusterTables
  import opened ClusterCausal
  import opened ClusterFiles
  import opened ClusterTheorems
  import opened ClusterHistory
  import opened ClusterStored
  import opened MessageBytes
  import opened BackupStreams

  function ReachedW(ids: seq<int>, refusalReleases: bool, es: seq<WireEvent>): Wired {
    RunW(StartW(ids, refusalReleases), es)
  }

  lemma ReachedIsCluster(ids: seq<int>, refusalReleases: bool, es: seq<WireEvent>)
    requires AllLegalW(StartW(ids, refusalReleases), es)
    ensures WiredInv(ReachedW(ids, refusalReleases, es)) && ClusterInv(ReachedW(ids, refusalReleases, es).s)
    ensures |ReachedW(ids, refusalReleases, es).sent| == |ids|
  {
    StartInv(ids, refusalReleases);
    StartStream(ids, refusalReleases, 0);
    hide ClusterInv, WiredInv, Start;
    RunIsCluster(StartW(ids, refusalReleases), es);
  }

  /** However the chunks of all messages interleave, crossed or not, the messages wholly written under one lock are a
      prefix of what was committed under it, and a later slot's of an earlier slot's, shorter by at most one. */
  lemma WholeMessagesAgree(ids: seq<int>, refusalReleases: bool, es: seq<WireEvent>, i: nat, j: nat, file: bool)
    requires AllLegalW(StartW(ids, refusalReleases), es) && i <= j < |ids|
    ensures
      var w := ReachedW(ids, refusalReleases, es);
      && |w.sent| == |ids|
      && var a, b, all := Part(Messages(w.sent[i]), file), Part(Messages(w.sent[j]), file), LogOf(w.s, file);
         Prefix(b, a) && Prefix(a, all) && |all| <= |b| + 1
  {
    ReachedIsCluster(ids, refusalReleases, es);
    hide ReachedW, Part, TablesInv, StoresInv, Prefix;
    var w := ReachedW(ids, refusalReleases, es);
    assert SentOk(w.sent[i], w.s.backups[i].log) && SentOk(w.sent[j], w.s.backups[j].log);
    PrefixIn(w.s, i, j, file);
  }

  /** In every run in which no message is crossed by another one, what a backup has unread is the messages of its log
      that it has not applied and a proper part of at most one more; its loop receives exactly those messages, and its
      store is the replay of the others. */
  lemma StreamIntegrity(ids: seq<int>, refusalReleases: bool, es: seq<WireEvent>, k: nat) returns (part: string)
    requires AllLegalW(StartW(ids, refusalReleases), es) && Uncrossed(StartW(ids, refusalReleases), es) && k < |ids|
    ensures
      var w := ReachedW(ids, refusalReleases, es);
      && WiredInv(w) && k < |w.sent| && k < |w.receivers| && k < |w.s.backups|
      && var b, r := w.s.backups[k], w.receivers[k];
      && b.applied <= |b.log| && b.applied <= |w.sent[k]|
      && r.store == Replay(b.log[..b.applied])
      && r.unread == AllBytes(Unapplied(w, k)) + part
      && ReceiveAll(r.unread) == (Gots(b.log[b.applied..]), part)
      && (part == "" || exists x :: WritesAt(w, x, k) && part == BegunBy(w, x))
  {
    ReachedIsCluster(ids, refusalReleases, es);
    StartStream(ids, refusalReleases, k);
    hide StartW, WiredInv, StreamInv, ControlInv, LogsInv, TablesInv;
    RunKeepsStream(StartW(ids, refusalReleases), es, k);
    var w := ReachedW(ids, refusalReleases, es);
    hide RunW;
    part := StreamOf(w, k);
  }

  lemma StreamOf(w: Wired, k: nat) returns (part: string)
    requires StreamInv(w, k) && StoresInv(w.s)
    ensures WiredInv(w) && k < |w.sent| && k < |w.receivers| && k < |w.s.backups|
    ensures
      var b, r := w.s.backups[k], w.receivers[k];
      && b.applied <= |b.log| && b.applied <= |w.sent[k]|
      && r.store == b.store == Replay(b.log[..b.applied])
      && r.unread == AllBytes(Unapplied(w, k)) + part
      && ReceiveAll(r.unread) == (Gots(b.log[b.applied..]), part)
      && (part == "" || exists x :: WritesAt(w, x, k) && part == BegunBy(w, x))
  {
    StreamIsWired(w, k);
    StoresAgree(w, k);
    part := Partial(w, k);
    PartialIsCut(w, k);
    UnappliedAre(w, k);
    ReceiveStream(Unapplied(w, k), part);
    CutReceivesNothing(part);
    if x :| WritesAt(w, x, k) { PartialIs(w, x, k); } else { NoPartial(w, k); }
    var rest := w.s.backups[k].log[w.s.backups[k].applied..];
    assert Gots(rest) + [] == Gots(rest);
    hide ReceiveAll, WiredInv, Partial, Replay, AllBytes, WritesAt;
  }

  lemma CutReceivesNothing(part: string)
    requires ReceiveOne(part) == None
    ensures ReceiveAll(part) == ([], part)
  {
    hide ReceiveOne;
  }

  // ---------- what a backup has once it has received all it can ----------

  function AbsorbAll(b: Store, rs: seq<Received>): Store
    decreases |rs|
  {
    if rs == [] then b else AbsorbAll(Absorb(b, rs[0]), rs[1..])
  }

  /** The store of a backup whose loop goes on until it blocks. */
  function CaughtUp(r: Receiver): Store { AbsorbAll(r.store, ReceiveAll(r.unread).0) }

  lemma {:induction false} AbsorbGots(b: Store, ms: seq<Message>)
    ensures AbsorbAll(b, Gots(ms)) == Drain(b, ms)
    decreases |ms|
  {
    hide Apply;
    if ms == [] {
      assert Gots(ms) == [];
    } else {
      assert Gots(ms)[0] == Got(ms[0]) && Gots(ms)[1..] == Gots(ms[1..]);
      AbsorbGots(Apply(b, ms[0]), ms[1..]);
    }
  }

  lemma {:induction false} DrainConcat(b: Store, p: seq<Message>, q: seq<Message>)
    ensures Drain(b, p + q) == Drain(Drain(b, p), q)
    decreases |p|
  {
    hide Apply;
    if p == [] {
      assert p + q == q;
    } else {
      assert (p + q)[0] == p[0] && (p + q)[1..] == p[1..] + q;
      DrainConcat(Apply(b, p[0]), p[1..], q);
    }
  }

  lemma CaughtUpIs(w: Wired, k: nat)
    requires StreamInv(w, k) && ClusterInv(w.s)
    ensures k < |w.receivers| && k < |w.s.backups| && w.s.backups[k].applied <= |w.s.backups[k].log|
    ensures CaughtUp(w.receivers[k]) == Drain(w.s.backups[k].store, w.s.backups[k].log[w.s.backups[k].applied..])
  {
    var part := StreamOf(w, k);
    hide StreamInv, StoresInv, ReceiveAll, AllBytes;
    AbsorbGots(w.s.backups[k].store, w.s.backups[k].log[w.s.backups[k].applied..]);
  }

  lemma ReachedStream(ids: seq<int>, refusalReleases: bool, es: seq<WireEvent>, k: nat)
    requires AllLegalW(StartW(ids, refusalReleases), es) && Uncrossed(StartW(ids, refusalReleases), es) && k < |ids|
    ensures
      var w := ReachedW(ids, refusalReleases, es);
      StreamInv(w, k) && ClusterInv(w.s) && |w.receivers| == |w.s.backups| == |ids|
  {
    ReachedIsCluster(ids, refusalReleases, es);
    StartStream(ids, refusalReleases, k);
    hide StartW, StreamInv, ClusterInv, SentOk, WritingOk;
    RunKeepsStream(StartW(ids, refusalReleases), es, k);
    hide RunW;
  }

  /** A backup there from the start, that receives what it can and then the session message still being sent to it,
      does not fault and has the primary's users and devices slot by slot, unless a message was crossed. */
  lemma ReplicationOfBytes(ids: seq<int>, refusalReleases: bool, es: seq<WireEvent>, k: nat)
    requires AllLegalW(StartW(ids, refusalReleases), es) && Uncrossed(StartW(ids, refusalReleases), es) && k < |ids|
    ensures
      var w := ReachedW(ids, refusalReleases, es);
      && k < |w.receivers|
      && var done := Drain(CaughtUp(w.receivers[k]), Pending(w.s, false, k));
      done.up && TableInv(w.s.table) && SameShape(w.s.table, done.table)
  {
    ReachedStream(ids, refusalReleases, es, k);
    hide ReachedW, StreamInv, ControlInv, LogsInv, StoresInv, TableInv, SameShape, Replay, Drain, CaughtUp, CausalInv;
    var w := ReachedW(ids, refusalReleases, es);
    CaughtUpIs(w, k);
    ReplicationIn(w.s, k);
    var b := w.s.backups[k];
    DrainConcat(b.store, b.log[b.applied..], Pending(w.s, false, k));
  }

  ghost predicate NeverOverlapsW(w: Wired, es: seq<WireEvent>, path: string) {
    NoOverlap(RunW(w, es).s, path) && (es == [] || NeverOverlapsW(w, es[..|es| - 1], path))
  }

  lemma {:induction false} RunPathW(w: Wired, es: seq<WireEvent>, i: nat, path: string)
    requires WiredInv(w) && ClusterInv(w.s) && AllLegalW(w, es) && NeverOverlapsW(w, es, path)
    requires i < |w.s.backups| && PathInv(w.s, i, path)
    ensures i < |RunW(w, es).s.backups| && PathInv(RunW(w, es).s, i, path)
  {
    hide WiredInv, ClusterInv, StepW, Legal, PathInv, NoOverlap;
    if es != [] {
      var init, e := es[..|es| - 1], es[|es| - 1];
      RunPathW(w, init, i, path);
      RunIsCluster(w, init);
      var w1 := RunW(w, init);
      assert NeverOverlapsW(w, init, path) && RunW(w, es) == StepW(w1, e);
      OverlapsNow(w, init, path);
      OverlapsNow(w, es, path);
      StepIsCluster(w1, e);
      if StepW(w1, e).s != w1.s { StepPath(w1.s, e.event, i, path); }
    }
  }

  lemma OverlapsNow(w: Wired, es: seq<WireEvent>, path: string)
    requires NeverOverlapsW(w, es, path)
    ensures NoOverlap(RunW(w, es).s, path)
  {}

  /** If no message is crossed, at every path on which no two operations were ever in flight together, a backup that
      receives what it can has the primary's content if none is in flight for it, and otherwise has it after that one. */
  lemma ConvergenceOfBytes(ids: seq<int>, refusalReleases: bool, es: seq<WireEvent>, i: nat, path: string)
    requires AllLegalW(StartW(ids, refusalReleases), es) && Uncrossed(StartW(ids, refusalReleases), es) && i < |ids|
    requires NeverOverlapsW(StartW(ids, refusalReleases), es, path)
    ensures
      var w := ReachedW(ids, refusalReleases, es);
      && i < |w.receivers|
      && var done := CaughtUp(w.receivers[i]);
      && ((forall tid :: !OwedBy(w.s, tid, i, path)) ==> Content(done.disk, path) == Content(w.s.disk, path))
      && (forall tid :: OwedBy(w.s, tid, i, path) ==>
            Content(Apply(done, Carried(w.s.threads[tid]).value).disk, path) == Content(w.s.disk, path))
  {
    var start := StartW(ids, refusalReleases);
    StartInv(ids, refusalReleases);
    StartStream(ids, refusalReleases, i);
    assert PathInv(start.s, i, path);
    ReachedStream(ids, refusalReleases, es, i);
    hide StartW, Start, NoOverlap, ClusterInv, PathInv, Content, Drain, Apply, OwedBy, StreamInv, CaughtUp, WiredInv;
    RunPathW(start, es, i, path);
    hide RunW;
    var w := ReachedW(ids, refusalReleases, es);
    ConvergenceIn(w.s, i, path);
    CaughtUpIs(w, i);
  }

  /** The events of a run of bytes that are steps of the message-level system. */
  lemma {:induction false} Projected(w: Wired, es: seq<WireEvent>) returns (es': seq<Event>)
    requires AllLegalW(w, es)
    ensures AllLegal(w.s, es') && Run(w.s, es') == RunW(w, es).s
  {
    hide StepW, Step, Legal;
    if es == [] {
      es' := [];
    } else {
      var before := Projected(w, es[..|es| - 1]);
      var w1, e := RunW(w, es[..|es| - 1]), es[|es| - 1];
      StepIsCluster(w1, e);
      if StepW(w1, e).s == w1.s {
        es' := before;
      } else {
        es' := before + [e.event];
        assert es'[..|es'| - 1] == before;
      }
    }
  }

  /** What a backup makes of its bytes, where no message was crossed and no two operations met at the path, is what the last
      upload or delete written there says, once none is in flight for it. */
  lemma StoredFromBytes(ids: seq<int>, refusalReleases: bool, es: seq<WireEvent>, i: nat, path: string, content: string)
    returns (es': seq<Event>)
    requires AllLegalW(StartW(ids, refusalReleases), es) && Uncrossed(StartW(ids, refusalReleases), es) && i < |ids|
    requires NeverOverlapsW(StartW(ids, refusalReleases), es, path)
    requires forall tid :: !OwedBy(ReachedW(ids, refusalReleases, es).s, tid, i, path)
    ensures AllLegal(Start(ids, refusalReleases), es')
    ensures Reached(ids, refusalReleases, es') == ReachedW(ids, refusalReleases, es).s
    ensures
      var w := ReachedW(ids, refusalReleases, es);
      && i < |w.receivers|
      && (Content(CaughtUp(w.receivers[i]).disk, path) == Some(content) <==>
          LastUploaded(Start(ids, refusalReleases), es', path, content))
  {
    hide *;
    var start := StartW(ids, refusalReleases);
    es' := Projected(start, es);
    ReachedWIs(ids, refusalReleases, es);
    ReachedIs(ids, refusalReleases, es');
    ConvergenceOfBytes(ids, refusalReleases, es, i, path);
    StoredExactly(ids, refusalReleases, es', path, content);
  }

  lemma ReachedWIs(ids: seq<int>, refusalReleases: bool, es: seq<WireEvent>)
    ensures ReachedW(ids, refusalReleases, es) == RunW(StartW(ids, refusalReleases), es)
    ensures StartW(ids, refusalReleases).s == Start(ids, refusalReleases)
  {}

  lemma CaughtUpAlready(r: Receiver)
    requires ReceiveOne(r.unread) == None
    ensures CaughtUp(r) == r.store
  {
    CutReceivesNothing(r.unread);
    hide ReceiveAll, ReceiveOne;
  }

  /** Failover: when the primary has died and a backup has no whole message unread, it is the replay of what was wholly
      sent to it; it lacks at most the session message that was being sent, with which it has the dead primary's users
      and devices, and at every path without overlapping operations the primary's content if none was in flight for it. */
  lemma FailoverOfBytes(ids: seq<int>, refusalReleases: bool, es: seq<WireEvent>, k: nat)
    requires AllLegalW(StartW(ids, refusalReleases), es) && Uncrossed(StartW(ids, refusalReleases), es) && k < |ids|
    ensures
      var w := ReachedW(ids, refusalReleases, es);
      && k < |w.receivers| && k < |w.s.backups|
      && var r, log := w.receivers[k], w.s.backups[k].log;
      (ReceiveOne(r.unread) == None ==>
        && r.store == Replay(log) && |Pending(w.s, false, k)| <= 1
        && SameShape(w.s.table, Drain(r.store, Pending(w.s, false, k)).table)
        && forall path | NeverOverlapsW(StartW(ids, refusalReleases), es, path) && forall tid :: !OwedBy(w.s, tid, k, path) ::
             Content(r.store.disk, path) == Content(w.s.disk, path))
  {
    ReachedStream(ids, refusalReleases, es, k);
    ReplicationOfBytes(ids, refusalReleases, es, k);
    var w := ReachedW(ids, refusalReleases, es);
    hide ReachedW, StartW, AllLegalW, Uncrossed, NeverOverlapsW, StreamInv, ClusterInv, ReceiveOne, CaughtUp, Drain,
      SameShape, TableInv,
      Content, OwedBy, Replay;
    if ReceiveOne(w.receivers[k].unread) == None {
      CaughtUpAlready(w.receivers[k]);
      AllApplied(w, k);
      forall path | NeverOverlapsW(StartW(ids, refusalReleases), es, path) && forall tid :: !OwedBy(w.s, tid, k, path)
        ensures Content(w.receivers[k].store.disk, path) == Content(w.s.disk, path)
      {
        ConvergenceOfBytes(ids, refusalReleases, es, k, path);
      }
    }
  }

  lemma AllApplied(w: Wired, k: nat)
    requires StreamInv(w, k) && ClusterInv(w.s) && ReceiveOne(w.receivers[k].unread) == None
    ensures k < |w.s.backups| && w.receivers[k].store == Replay(w.s.backups[k].log)
  {
    var part := StreamOf(w, k);
    var b := w.s.backups[k];
    CutReceivesNothing(w.receivers[k].unread);
    assert |Gots(b.log[b.applied..])| == 0;
    assert b.log[..b.applied] == b.log;
    hide StreamInv, ClusterInv, ReceiveAll, ReceiveOne;
  }
}
