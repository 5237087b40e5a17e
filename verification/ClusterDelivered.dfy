/** What a device's directory holds after what its notification descriptor brought, in every run of the primary. */
module ClusterDelivered {
  import opened SessionTable
  import opened Fanout
  import opened Wire
  import opened Disk
  import opened Cluster
  import opened ClusterLocks
  import opened ClusterFiles
  import opened ClusterWires
  import opened ClusterTheorems
  import opened ClusterSockets
  import opened ClusterHistory
  import opened ClusterNotified
  import SyncClient

  /** The thread commits the notification of its command. */
  ghost predicate Announces(s: State, e: Event) {
    e.Go? && s.alive && s.userLock.None? && e.tid in s.threads && s.threads[e.tid].NotifyWait? && Step(s, e).alive
  }

  /** The connection on descriptor n is accepted. */
  ghost predicate Opens(s: State, e: Event, n: int) { LetsIn(s, e) && s.threads[e.tid].socket == n }

  /** The thread's user has another device whose latest third connection is on descriptor n. */
  ghost predicate Tells(s0: State, es: seq<Event>, tid: nat, n: int) {
    exists c, m :: Asks(es, tid, c, m) && Listens(s0, es, c.user, c.device, n)
  }

  /** What the clients are told on a descriptor: since a connection was accepted on it, the frame of every upload and
      delete of another device of the user whose latest third connection it is. */
  ghost function Told(s0: State, es: seq<Event>, n: int): seq<Frame> {
    if es == [] then []
    else
      var init, e := es[..|es| - 1], es[|es| - 1];
      var before := Run(s0, init);
      if Opens(before, e, n) then []
      else if Announces(before, e) && Tells(s0, init, e.tid, n) then Told(s0, init, n) + [before.threads[e.tid].frame]
      else Told(s0, init, n)
  }

  lemma FramesStay(s: State, e: Event, n: int)
    requires ClusterInv(s) && !Announces(s, e)
    ensures FramesOn(Step(s, e), n) == if Opens(s, e, n) then [] else FramesOn(s, n)
  {
    hide *;
    if !(e.Go? && s.alive && e.tid in s.threads) {
      ClientFrames(s, e, n);
    } else if s.threads[e.tid].LoginWait? {
      LoginFrames(s, e.tid, n);
    } else if s.threads[e.tid].NotifyWait? {
      NoNotifyFrames(s, e.tid, n);
    } else {
      OtherFrames(s, e.tid, n);
    }
  }

  lemma ClientFrames(s: State, e: Event, n: int)
    requires !(e.Go? && s.alive && e.tid in s.threads)
    ensures FramesOn(Step(s, e), n) == FramesOn(s, n) && !Opens(s, e, n)
  {
    hide StepThread, Apply;
  }

  lemma LoginFrames(s: State, tid: nat, n: int)
    requires ClusterInv(s) && s.alive && tid in s.threads && s.threads[tid].LoginWait?
    ensures FramesOn(Step(s, Go(tid)), n) == if Opens(s, Go(tid), n) then [] else FramesOn(s, n)
  {
    hide ClusterInv, Login, Seated, CanLogin, TableInv, ControlInv;
    InvParts(s);
    ThreadControl(s, tid);
    var c, socket := s.threads[tid].conn, s.threads[tid].socket;
    LoginDecision(s.table, c, socket);
  }

  lemma NoNotifyFrames(s: State, tid: nat, n: int)
    requires s.alive && tid in s.threads && s.threads[tid].NotifyWait? && !Announces(s, Go(tid))
    ensures FramesOn(Step(s, Go(tid)), n) == FramesOn(s, n) && !Opens(s, Go(tid), n)
  {
    hide Targets, Todo, AddFrames, UserAt;
  }

  lemma OtherFrames(s: State, tid: nat, n: int)
    requires s.alive && tid in s.threads && !s.threads[tid].LoginWait? && !s.threads[tid].NotifyWait?
    ensures FramesOn(Step(s, Go(tid)), n) == FramesOn(s, n) && !Opens(s, Go(tid), n)
  {
    hide Exit, MessageOf, ApplyFile, MakeDir, IsFile, StepLoginWait, StepNotifyWait, UserAt, Targets, Todo, AddFrames;
  }

  lemma ToldNext(s0: State, es: seq<Event>, n: int)
    requires es != []
    ensures
      var init, e := es[..|es| - 1], es[|es| - 1];
      var before := Run(s0, init);
      Told(s0, es, n) ==
      if Opens(before, e, n) then []
      else if Announces(before, e) && Tells(s0, init, e.tid, n) then Told(s0, init, n) + [before.threads[e.tid].frame]
      else Told(s0, init, n)
  {
    hide Opens, Announces, Tells, Run;
  }

  lemma NotBothKinds(s: State, e: Event, n: int)
    ensures !(Opens(s, e, n) && Announces(s, e))
  {
    hide Step;
  }

  lemma AnnounceFrames(ids: seq<int>, refusalReleases: bool, es: seq<Event>, tid: nat, n: int)
    requires AllLegal(Start(ids, refusalReleases), es) && AllFresh(Start(ids, refusalReleases), es) && n != -1
    requires Announces(Reached(ids, refusalReleases, es), Go(tid))
    ensures
      var s0, s := Start(ids, refusalReleases), Reached(ids, refusalReleases, es);
      && tid in s.threads && s.threads[tid].NotifyWait?
      && FramesOn(Step(s, Go(tid)), n) ==
         FramesOn(s, n) + if Tells(s0, es, tid, n) then [s.threads[tid].frame] else []
  {
    hide *;
    AnnounceIs(Reached(ids, refusalReleases, es), tid);
    StartIs(ids, refusalReleases);
    StartInv(ids, refusalReleases);
    RunHistory(Start(ids, refusalReleases), es);
    ReachedIs(ids, refusalReleases, es);
    var s0, s := Start(ids, refusalReleases), Reached(ids, refusalReleases, es);
    var c, m, f := NotifierHistory(s0, es, s, tid);
    NotifiedExactly(ids, refusalReleases, es, tid, c, m, f, n);
    TellsIs(s0, es, tid, c, m, n);
  }

  lemma AnnounceIs(s: State, tid: nat)
    requires Announces(s, Go(tid))
    ensures s.alive && s.userLock.None? && tid in s.threads && s.threads[tid].NotifyWait? && Step(s, Go(tid)).alive
  {
    hide Step;
  }

  lemma NotifierHistory(s0: State, es: seq<Event>, s: State, tid: nat) returns (c: Connection, m: int, f: Frame)
    requires HistoryInv(s0, es) && s == Run(s0, es) && tid in s.threads && s.threads[tid].NotifyWait?
    ensures Asks(es, tid, c, m) && Ordered(s0, es, tid, f) && s.threads[tid].frame == f
  {
    HistoryOf(s0, es, tid);
    hide Run, Asks, Ordered, HistoryInv;
    var t := s.threads[tid];
    c, m :| Asks(es, tid, c, m) && Serves(t, c, m) && exists f :: Ordered(s0, es, tid, f) && Carries(t, c.user, f);
    f :| Ordered(s0, es, tid, f) && Carries(t, c.user, f);
  }

  lemma TellsIs(s0: State, es: seq<Event>, tid: nat, c: Connection, m: int, n: int)
    requires Asks(es, tid, c, m)
    ensures Tells(s0, es, tid, n) <==> Listens(s0, es, c.user, c.device, n)
  {
    hide Asks, Listens;
    if c', m' :| Asks(es, tid, c', m') && Listens(s0, es, c'.user, c'.device, n) { AsksOnce(es, tid, c, m, c', m'); }
  }

  /** In every run over fresh descriptors, the frames committed on a descriptor are exactly what its client is to be told. */
  lemma {:induction false} FramesAreTold(ids: seq<int>, refusalReleases: bool, es: seq<Event>, n: int)
    requires AllLegal(Start(ids, refusalReleases), es) && AllFresh(Start(ids, refusalReleases), es) && n != -1
    ensures FramesOn(Reached(ids, refusalReleases, es), n) == Told(Start(ids, refusalReleases), es, n)
    decreases |es|
  {
    hide *;
    var s0 := Start(ids, refusalReleases);
    ReachedIs(ids, refusalReleases, es);
    if es == [] {
      NothingTold(ids, refusalReleases, n);
    } else {
      var init, e := es[..|es| - 1], es[|es| - 1];
      BeforeLast(s0, es);
      FramesAreTold(ids, refusalReleases, init, n);
      ReachedIs(ids, refusalReleases, init);
      ReachedInv(ids, refusalReleases, init);
      RunLast(s0, es);
      ToldNext(s0, es, n);
      var before := Run(s0, init);
      NotBothKinds(before, e, n);
      if Announces(before, e) {
        IsGo(before, e);
        AnnounceFrames(ids, refusalReleases, init, e.tid, n);
        AddsFrame(FramesOn(before, n));
      } else {
        FramesStay(before, e, n);
      }
    }
  }

  lemma AddsFrame(fs: seq<Frame>)
    ensures fs + [] == fs
  {}

  lemma IsGo(s: State, e: Event)
    requires Announces(s, e)
    ensures e.Go? && e == Go(e.tid)
  {
    hide Step;
  }

  lemma NothingTold(ids: seq<int>, refusalReleases: bool, n: int)
    ensures FramesOn(Run(Start(ids, refusalReleases), []), n) == Told(Start(ids, refusalReleases), [], n)
  {}

  lemma BeforeLast(s0: State, es: seq<Event>)
    requires es != [] && AllLegal(s0, es) && AllFresh(s0, es)
    ensures AllLegal(s0, es[..|es| - 1]) && AllFresh(s0, es[..|es| - 1])
  {
    hide Run, Legal, Fresh;
  }

  /** However the threads interleave: after the bytes on a notification descriptor, the directory of its client has under
      each name what the last of the frames received about it says, and these are the first ones it was to be told, all
      of them when no notification is going on. */
  lemma DirectoryFollows(ids: seq<int>, refusalReleases: bool, es: seq<Event>, n: int, dir: SyncClient.Directory) returns (k: nat)
    requires AllLegal(Start(ids, refusalReleases), es) && AllFresh(Start(ids, refusalReleases), es) && n != -1
    ensures
      var s := Reached(ids, refusalReleases, es);
      var fs, received := Told(Start(ids, refusalReleases), es, n), DecodeAll(BytesOn(s, n)).0;
      && k <= |fs| && (Left(s, n) == "" ==> k == |fs|)
      && forall name, content ::
           SyncClient.Holds(SyncClient.ApplyAll(dir, received), name, content) <==> SyncClient.Says(fs[..k], dir, name, content)
  {
    hide *;
    var part: string;
    k, part := FrameIntegrity(ids, refusalReleases, es, n);
    FramesAreTold(ids, refusalReleases, es, n);
    StartInv(ids, refusalReleases);
    RunWire(Start(ids, refusalReleases), es, n);
    ReachedIs(ids, refusalReleases, es);
    var s := Reached(ids, refusalReleases, es);
    var fs := FramesOn(s, n);
    FramesAreOk(s, n);
    if Left(s, n) == "" {
      k := |fs|;
      AllOf(fs);
    }
    forall name, content
      ensures
        SyncClient.Holds(SyncClient.ApplyAll(dir, DecodeAll(BytesOn(s, n)).0), name, content) <==>
        SyncClient.Says(fs[..k], dir, name, content)
    {
      SyncClient.DirectorySays(dir, fs[..k], name, content);
    }
  }

  lemma AllOf(fs: seq<Frame>)
    ensures fs[..|fs|] == fs
  {}

  lemma FramesAreOk(s: State, n: int)
    requires WireInv(s, n)
    ensures forall i :: 0 <= i < |FramesOn(s, n)| ==> FrameOk(FramesOn(s, n)[i])
  {
    hide FrameOk, EncodeAll, FramesOn;
  }
}
