/** Runs of the bytes: what one thread's writes do, and the runs of Cluster written out in bytes. */
module BackupRuns {
  import opened Wire
  import opened Disk
  import opened Cluster
  import opened ClusterLocks
  import opened ClusterLogs
  import opened ClusterTables
  import opened ClusterCausal
  import opened ClusterFiles
  import opened ClusterTheorems
  import opened ClusterRuns
  import opened MessageBytes
  import opened BackupStreams

  // ---------- one thread's writes ----------

  lemma {:induction false} RunConcatW(w: Wired, a: seq<WireEvent>, b: seq<WireEvent>)
    requires AllLegalW(w, a) && AllLegalW(RunW(w, a), b)
    ensures AllLegalW(w, a + b) && RunW(w, a + b) == RunW(RunW(w, a), b)
    ensures Uncrossed(w, a) && Uncrossed(RunW(w, a), b) ==> Uncrossed(w, a + b)
  {
    hide StepW, Legal, Crosses;
    if b == [] {
      assert a + b == a;
    } else {
      RunConcatW(w, a, b[..|b| - 1]);
      assert (a + b)[..|a + b| - 1] == a + b[..|b| - 1];
    }
  }

  lemma RunOneW(w: Wired, e: WireEvent)
    requires Legal(w.s, e.event)
    ensures RunW(w, [e]) == StepW(w, e) && AllLegalW(w, [e])
    ensures !Crosses(w, e) ==> Uncrossed(w, [e])
  {
    hide StepW, Legal, Crosses;
    assert [e][..0] == [] && RunW(w, []) == w && AllLegalW(w, []) && Uncrossed(w, []);
  }

  lemma GoThenW(w: Wired, e: WireEvent, rest: seq<WireEvent>)
    requires Legal(w.s, e.event) && AllLegalW(StepW(w, e), rest)
    ensures AllLegalW(w, [e] + rest) && RunW(w, [e] + rest) == RunW(StepW(w, e), rest)
    ensures !Crosses(w, e) && Uncrossed(StepW(w, e), rest) ==> Uncrossed(w, [e] + rest)
  {
    hide StepW, Legal, Crosses;
    RunOneW(w, e);
    RunConcatW(w, [e], rest);
  }

  lemma NoEventsW(w: Wired)
    ensures RunW(w, []) == w && AllLegalW(w, []) && Uncrossed(w, [])
  {}

  /** Bytes arrive at a slot. */
  function Arrives(rs: seq<Receiver>, k: nat, bytes: string): seq<Receiver>
    requires k < |rs|
  {
    rs[k := rs[k].(unread := rs[k].unread + bytes)]
  }

  lemma ArrivesTwice(rs: seq<Receiver>, k: nat, a: string, b: string)
    requires k < |rs|
    ensures Arrives(Arrives(rs, k, a), k, b) == Arrives(rs, k, a + b)
  {
    Associative(rs[k].unread, a, b);
  }

  /** The thread has done n more writes of what it is inside of. */
  function Further(w: Wired, tid: nat, n: nat): Wired
    requires Ready(w, tid) && tid in w.writing && n < |w.writing[tid].left|
  {
    var c := w.writing[tid];
    w.(writing := w.writing[tid := Writing(c.packet, c.left[n..])],
       receivers := Arrives(w.receivers, w.s.threads[tid].slot, Flat(c.left[..n])))
  }

  /** A write that is not the last one of its message. */
  lemma OneWrite(w: Wired, tid: nat, padding: string, more: string)
    requires Ready(w, tid) && |Current(w, tid, padding, more).left| > 1
    ensures
      var c, k, w1 := Current(w, tid, padding, more), w.s.threads[tid].slot, StepW(w, At(Go(tid), padding, more));
      && w1 == w.(writing := w.writing[tid := Writing(c.packet, c.left[1..])], receivers := Arrives(w.receivers, k, c.left[0]))
      && Ready(w1, tid) && (forall x :: WritesAt(w1, x, k) ==> x == tid || WritesAt(w, x, k))
  {
    hide MessageOk, WritesOf, Step;
  }

  lemma OneWriteCrosses(w: Wired, tid: nat, padding: string, more: string)
    requires Ready(w, tid)
    ensures (forall x :: WritesAt(w, x, w.s.threads[tid].slot) ==> x == tid) ==> !Crosses(w, At(Go(tid), padding, more))
  {
    hide MessageOk;
  }

  lemma {:induction false} SomeWrites(w: Wired, tid: nat, n: nat) returns (es: seq<WireEvent>)
    requires Ready(w, tid) && tid in w.writing && n < |w.writing[tid].left|
    ensures AllLegalW(w, es) && RunW(w, es) == Further(w, tid, n)
    ensures (forall x :: WritesAt(w, x, w.s.threads[tid].slot) ==> x == tid) ==> Uncrossed(w, es)
    decreases n
  {
    var e := At(Go(tid), "", "");
    assert Legal(w.s, e.event);
    hide *;
    if n == 0 {
      NoEventsW(w);
      NoWrites(w, tid);
      es := [];
    } else {
      FurtherNext(w, tid, n);
      OneWriteCrosses(w, tid, "", "");
      var rest := SomeWrites(StepW(w, e), tid, n - 1);
      GoThenW(w, e, rest);
      es := [e] + rest;
    }
  }

  lemma NoWrites(w: Wired, tid: nat)
    requires Ready(w, tid) && tid in w.writing && 0 < |w.writing[tid].left|
    ensures Further(w, tid, 0) == w
  {
    NoneArrives(w.receivers, w.s.threads[tid].slot, w.writing[tid].left);
    hide MessageOk, Arrives;
  }

  lemma FurtherNext(w: Wired, tid: nat, n: nat)
    requires Ready(w, tid) && tid in w.writing && 0 < n < |w.writing[tid].left|
    ensures
      var w1 := StepW(w, At(Go(tid), "", ""));
      && Ready(w1, tid) && tid in w1.writing && n - 1 < |w1.writing[tid].left| && w1.s == w.s
      && Further(w1, tid, n - 1) == Further(w, tid, n)
      && forall x :: WritesAt(w1, x, w.s.threads[tid].slot) ==> x == tid || WritesAt(w, x, w.s.threads[tid].slot)
  {
    assert Current(w, tid, "", "") == w.writing[tid];
    OneWrite(w, tid, "", "");
    MoreArrives(w.receivers, w.s.threads[tid].slot, w.writing[tid].left, n);
    hide StepW, WritesAt, Current, Arrives, MessageOk;
  }

  lemma NoneArrives(rs: seq<Receiver>, k: nat, ws: seq<string>)
    requires k < |rs|
    ensures ws[0..] == ws && Arrives(rs, k, Flat(ws[..0])) == rs
  {
    assert ws[..0] == [] && rs[k].unread + "" == rs[k].unread;
  }

  lemma MoreArrives(rs: seq<Receiver>, k: nat, ws: seq<string>, n: nat)
    requires k < |rs| && 0 < n <= |ws|
    ensures ws[1..][n - 1..] == ws[n..]
    ensures Arrives(Arrives(rs, k, ws[0]), k, Flat(ws[1..][..n - 1])) == Arrives(rs, k, Flat(ws[..n]))
  {
    assert ws[..n][0] == ws[0] && ws[..n][1..] == ws[1..][..n - 1];
    ArrivesTwice(rs, k, ws[0], Flat(ws[1..][..n - 1]));
  }

  /** The thread has done all that was left of its message to the slot. */
  function Finished(w: Wired, tid: nat, c: Writing): Wired
    requires Ready(w, tid)
  {
    var k := w.s.threads[tid].slot;
    w.(s := Step(w.s, Go(tid)), writing := w.writing - {tid}, receivers := Arrives(w.receivers, k, Flat(c.left)),
       sent := w.sent[k := w.sent[k] + [c.packet]])
  }

  lemma {:induction false} AllWrites(w: Wired, tid: nat, padding: string, more: string) returns (es: seq<WireEvent>)
    requires Ready(w, tid)
    ensures AllLegalW(w, es) && RunW(w, es) == Finished(w, tid, Current(w, tid, padding, more))
    ensures (forall x :: WritesAt(w, x, w.s.threads[tid].slot) ==> x == tid) ==> Uncrossed(w, es)
    decreases |Current(w, tid, padding, more).left|
  {
    var e := At(Go(tid), padding, more);
    assert Current(w, tid, padding, more).left != [] && Legal(w.s, e.event);
    hide *;
    OneWriteCrosses(w, tid, padding, more);
    if |Current(w, tid, padding, more).left| == 1 {
      OnlyWrite(w, tid, padding, more);
      RunOneW(w, e);
      es := [e];
    } else {
      OneWrite(w, tid, padding, more);
      NextWrite(w, tid, padding, more);
      var rest := AllWrites(StepW(w, e), tid, padding, more);
      GoThenW(w, e, rest);
      es := [e] + rest;
    }
  }

  lemma NextWrite(w: Wired, tid: nat, padding: string, more: string)
    requires Ready(w, tid) && |Current(w, tid, padding, more).left| > 1
    ensures
      var w1, c := StepW(w, At(Go(tid), padding, more)), Current(w, tid, padding, more);
      && Ready(w1, tid) && w1.s == w.s && |Current(w1, tid, padding, more).left| == |c.left| - 1
      && Finished(w1, tid, Current(w1, tid, padding, more)) == Finished(w, tid, c)
  {
    OneWrite(w, tid, padding, more);
    var w1, c, k := StepW(w, At(Go(tid), padding, more)), Current(w, tid, padding, more), w.s.threads[tid].slot;
    assert Current(w1, tid, padding, more) == Writing(c.packet, c.left[1..]);
    hide StepW, Ready, WritesAt, Current, Arrives, Step;
    MoreArrives(w.receivers, k, c.left, |c.left|);
    assert c.left[1..][..|c.left| - 1] == c.left[1..] && c.left[..|c.left|] == c.left;
    assert w1.writing - {tid} == w.writing - {tid};
  }

  /** A write that is the last one of its message. */
  lemma OnlyWrite(w: Wired, tid: nat, padding: string, more: string)
    requires Ready(w, tid) && |Current(w, tid, padding, more).left| == 1
    ensures StepW(w, At(Go(tid), padding, more)) == Finished(w, tid, Current(w, tid, padding, more))
  {
    var c := Current(w, tid, padding, more);
    hide MessageOk, WritesOf, Step;
    assert Flat([]) == "" && Flat(c.left) == c.left[0] + Flat(c.left[1..]) && c.left[1..] == [] && Flat(c.left) == c.left[0];
  }

  // ---------- the runs of Cluster ----------

  /** Every run of Cluster without steps of the backups is one of the bytes, in which messages are written whole. */
  lemma {:induction false} Lift(w: Wired, es: seq<Event>) returns (es': seq<WireEvent>)
    requires WiredInv(w) && ClusterInv(w.s) && w.writing == map[] && Possible(w.s, es)
    ensures AllLegalW(w, es') && Uncrossed(w, es')
    ensures RunW(w, es').s == Run(w.s, es) && RunW(w, es').writing == map[] && WiredInv(RunW(w, es'))
  {
    hide WiredInv, ClusterInv, StepW, Legal, Step;
    if es == [] {
      NoEventsW(w);
      es' := [];
    } else {
      var init, e := es[..|es| - 1], es[|es| - 1];
      var before := Lift(w, init);
      var w1 := RunW(w, before);
      RunInv(w.s, init);
      var last := LiftOne(w1, e);
      RunConcatW(w, before, last);
      RunIsWired(w1, last);
      es' := before + last;
    }
  }

  lemma {:induction false} RunIsWired(w: Wired, es: seq<WireEvent>)
    requires WiredInv(w)
    ensures WiredInv(RunW(w, es))
  {
    hide WiredInv, StepW;
    if es != [] {
      RunIsWired(w, es[..|es| - 1]);
      StepKeepsWired(RunW(w, es[..|es| - 1]), es[|es| - 1]);
    }
  }

  lemma LiftOne(w: Wired, e: Event) returns (es: seq<WireEvent>)
    requires WiredInv(w) && ClusterInv(w.s) && w.writing == map[] && Legal(w.s, e) && !e.ApplyNext?
    ensures AllLegalW(w, es) && Uncrossed(w, es)
    ensures RunW(w, es).s == Step(w.s, e) && RunW(w, es).writing == map[]
  {
    if e.Go? && AtSlot(w.s, e.tid) {
      AtSlotIsReady(w, e.tid);
      hide WiredInv, ClusterInv, Step, Ready;
      es := AllWrites(w, e.tid, "", "");
    } else {
      hide WiredInv, ClusterInv, Step;
      RunOneW(w, At(e, "", ""));
      es := [At(e, "", "")];
    }
  }

  lemma AtSlotIsReady(w: Wired, tid: nat)
    requires WiredInv(w) && ClusterInv(w.s) && AtSlot(w.s, tid)
    ensures Ready(w, tid)
  {
    if tid in w.writing { assert WritingOk(w.s, tid, w.writing[tid]); }
    ThreadControl(w.s, tid);
    hide ControlInv, LogsInv, TablesInv, StoresInv, CausalInv, WritesOf, MessageOk, SentOk;
  }
}
