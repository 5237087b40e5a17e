/** The cluster with the backups' sockets as bytes: a message is written to a slot chunk by chunk, under one of two
    locks, and a backup takes off its stream what its loop makes of the bytes. A thread that has done the last write of
    a message to a slot takes the step of Cluster that puts the message in the slot's log. */
module BackupStreams {
  import opened Limits
  import opened Wire
  import opened Disk
  import opened Cluster
  import opened ClusterTables
  import opened ClusterFiles
  import opened ClusterTheorems
  import opened MessageBytes

  /** A message a thread has begun to write to its slot, and the writes it has left there. */
  datatype Writing = Writing(packet: Packet, left: seq<string>)

  /** What has arrived at a backup and is not read yet, and the backup's own store. */
  datatype Receiver = Receiver(unread: string, store: Store)

  /** The history sent records the messages wholly written to each slot. */
  datatype Wired = Wired(s: State, writing: map<nat, Writing>, receivers: seq<Receiver>, sent: seq<seq<Packet>>)

  /** An event, with what is in memory around the records of a message that it begins to write. */
  datatype WireEvent = At(event: Event, padding: string, more: string)

  /** The thread's next step is a write to its slot. */
  predicate AtSlot(s: State, tid: nat) {
    s.alive && tid in s.threads && s.threads[tid].Broadcast? && s.threads[tid].slot < |s.backups|
  }

  predicate Ready(w: Wired, tid: nat) {
    && AtSlot(w.s, tid)
    && w.s.threads[tid].slot < |w.receivers| && w.s.threads[tid].slot < |w.sent|
    && MessageOk(w.s.threads[tid].message) && (tid in w.writing ==> w.writing[tid].left != [])
  }

  /** What the thread is writing, or begins to write. */
  function Current(w: Wired, tid: nat, padding: string, more: string): (c: Writing)
    requires Ready(w, tid)
    ensures c.left != []
  {
    var p := Packet(w.s.threads[tid].message, padding, more);
    if tid in w.writing then w.writing[tid] else Writing(p, WritesOf(p))
  }

  function WriteStep(w: Wired, tid: nat, padding: string, more: string): Wired
    requires Ready(w, tid)
  {
    var c, k := Current(w, tid, padding, more), w.s.threads[tid].slot;
    var arrived := w.receivers[k := w.receivers[k].(unread := w.receivers[k].unread + c.left[0])];
    if |c.left| > 1 then w.(writing := w.writing[tid := Writing(c.packet, c.left[1..])], receivers := arrived)
    else
      w.(s := Step(w.s, Go(tid)), writing := w.writing - {tid}, receivers := arrived,
         sent := w.sent[k := w.sent[k] + [c.packet]])
  }

  /** A backup's loop, once, when it does not block. */
  function Absorb(b: Store, r: Received): Store { if r.Got? then Apply(b, r.message) else b }

  function ReceiveStep(w: Wired, k: nat): Wired
    requires k < |w.receivers| && ReceiveOne(w.receivers[k].unread).Some?
  {
    var (received, rest) := ReceiveOne(w.receivers[k].unread).value;
    w.(s := Step(w.s, ApplyNext(k)), receivers := w.receivers[k := Receiver(rest, Absorb(w.receivers[k].store, received))])
  }

  function StepW(w: Wired, e: WireEvent): Wired {
    match e.event
    case ApplyNext(k) =>
      if k < |w.receivers| && ReceiveOne(w.receivers[k].unread).Some? then ReceiveStep(w, k) else w
    case Go(tid) =>
      if !AtSlot(w.s, tid) then w.(s := Step(w.s, e.event))
      else if Ready(w, tid) then WriteStep(w, tid, e.padding, e.more)
      else w
    case _ => w.(s := Step(w.s, e.event))
  }

  function RunW(w: Wired, es: seq<WireEvent>): Wired {
    if es == [] then w else StepW(RunW(w, es[..|es| - 1]), es[|es| - 1])
  }

  function StartW(ids: seq<int>, refusalReleases: bool): Wired {
    Wired(Start(ids, refusalReleases), map[], seq(|ids|, i => Receiver("", EmptyStore())), seq(|ids|, i => []))
  }

  ghost predicate AllLegalW(w: Wired, es: seq<WireEvent>) {
    es == [] || (AllLegalW(w, es[..|es| - 1]) && Legal(RunW(w, es[..|es| - 1]).s, es[|es| - 1].event))
  }

  /** The thread is inside a message to this slot. */
  predicate WritesAt(w: Wired, tid: nat, k: nat) {
    tid in w.writing && tid in w.s.threads && w.s.threads[tid].Broadcast? && w.s.threads[tid].slot == k
  }

  /** The event writes to a slot while another thread is inside a message to it. */
  ghost predicate Crosses(w: Wired, e: WireEvent) {
    e.event.Go? && AtSlot(w.s, e.event.tid)
    && exists x :: x != e.event.tid && WritesAt(w, x, w.s.threads[e.event.tid].slot)
  }

  /** No two threads are ever inside messages to one slot. */
  ghost predicate Uncrossed(w: Wired, es: seq<WireEvent>) {
    es == [] || (Uncrossed(w, es[..|es| - 1]) && !Crosses(RunW(w, es[..|es| - 1]), es[|es| - 1]))
  }

  // ---------- invariants ----------

  /** What is left of a message is a proper end of its writes. */
  ghost predicate WritingOk(s: State, tid: nat, c: Writing) {
    && tid in s.threads && s.threads[tid].Broadcast? && s.threads[tid].slot < |s.backups|
    && c.packet.message == s.threads[tid].message && MessageOk(c.packet.message)
    && var ws := WritesOf(c.packet);
       0 < |c.left| < |ws| && c.left == ws[|ws| - |c.left|..]
  }

  ghost predicate SentOk(ps: seq<Packet>, log: seq<Message>) { AllOk(ps) && Messages(ps) == log }

  /** Holds in every run: each slot's log is what has been wholly written to it. */
  ghost predicate WiredInv(w: Wired) {
    && |w.receivers| == |w.s.backups| == |w.sent|
    && (forall x :: x in w.writing ==> WritingOk(w.s, x, w.writing[x]))
    && (forall k :: 0 <= k < |w.sent| ==> SentOk(w.sent[k], w.s.backups[k].log))
  }

  /** What has been written of a message that is not finished. */
  function Begun(c: Writing): string
    requires MessageOk(c.packet.message) && |c.left| <= |WritesOf(c.packet)|
  {
    Flat(WritesOf(c.packet)[..|WritesOf(c.packet)| - |c.left|])
  }

  /** At most one thread is inside a message to the slot. */
  ghost predicate Lone(w: Wired, k: nat) { forall x, y :: WritesAt(w, x, k) && WritesAt(w, y, k) ==> x == y }

  /** What has been written of the message a thread is inside of, if there is one. */
  ghost function Partial(w: Wired, k: nat): string
    requires WiredInv(w)
  {
    if x :| WritesAt(w, x, k) then BegunBy(w, x) else ""
  }

  ghost function BegunBy(w: Wired, x: nat): string
    requires WiredInv(w) && x in w.writing
  {
    assert WritingOk(w.s, x, w.writing[x]);
    Begun(w.writing[x])
  }

  ghost function Unapplied(w: Wired, k: nat): (ps: seq<Packet>)
    requires WiredInv(w) && k < |w.sent| && w.s.backups[k].applied <= |w.sent[k]|
    ensures AllOk(ps)
  {
    assert SentOk(w.sent[k], w.s.backups[k].log);
    w.sent[k][w.s.backups[k].applied..]
  }

  /** Holds of a slot whose messages never crossed: its unread bytes are the messages its backup has not applied and
      the beginning of at most one more, and the backup's store is the one of Cluster. */
  ghost predicate StreamInv(w: Wired, k: nat) {
    && WiredInv(w) && k < |w.sent| && w.s.backups[k].applied <= |w.sent[k]|
    && w.receivers[k].store == w.s.backups[k].store && Lone(w, k)
    && w.receivers[k].unread == AllBytes(Unapplied(w, k)) + Partial(w, k)
  }

  lemma UnappliedAre(w: Wired, k: nat)
    requires WiredInv(w) && k < |w.sent| && w.s.backups[k].applied <= |w.sent[k]|
    ensures w.s.backups[k].applied <= |w.s.backups[k].log|
    ensures Messages(Unapplied(w, k)) == w.s.backups[k].log[w.s.backups[k].applied..]
  {
    assert SentOk(w.sent[k], w.s.backups[k].log);
    hide MessageOk, WritingOk;
  }

  lemma PartialIs(w: Wired, x: nat, k: nat)
    requires WiredInv(w) && Lone(w, k) && WritesAt(w, x, k)
    ensures Partial(w, k) == BegunBy(w, x)
  {}

  lemma NoPartial(w: Wired, k: nat)
    requires WiredInv(w) && forall x :: !WritesAt(w, x, k)
    ensures Partial(w, k) == ""
  {}

  lemma BegunGrows(c: Writing)
    requires MessageOk(c.packet.message)
    requires var ws := WritesOf(c.packet); 0 < |c.left| <= |ws| && c.left == ws[|ws| - |c.left|..]
    ensures |c.left| == |WritesOf(c.packet)| ==> Begun(c) == ""
    ensures |c.left| > 1 ==> Begun(Writing(c.packet, c.left[1..])) == Begun(c) + c.left[0]
    ensures |c.left| == 1 ==> Begun(c) + c.left[0] == Bytes(c.packet)
    ensures Begun(c) + Flat(c.left) == Bytes(c.packet)
  {
    var ws := WritesOf(c.packet);
    var n := |ws| - |c.left|;
    WritesAreBytes(c.packet);
    hide WritesOf, Bytes, MessageOk, Flat;
    FlatParts(ws, n);
    assert |c.left| > 1 ==> Writing(c.packet, c.left[1..]).left == ws[n + 1..];
    assert |c.left| == 1 ==> ws[..n + 1] == ws;
  }

  lemma FlatParts(ws: seq<string>, n: nat)
    requires n < |ws|
    ensures Flat(ws[..0]) == "" && Flat(ws[..n + 1]) == Flat(ws[..n]) + ws[n] && Flat(ws[..n]) + Flat(ws[n..]) == Flat(ws)
  {
    hide *;
    Slices(ws, n);
    FlatConcat(ws[..n], [ws[n]]);
    FlatConcat(ws[..n], ws[n..]);
    FlatOne(ws[n]);
  }

  lemma Slices(ws: seq<string>, n: nat)
    requires n < |ws|
    ensures ws[..0] == [] && ws[..n + 1] == ws[..n] + [ws[n]] && ws[..n] + ws[n..] == ws
  {}

  lemma FlatOne(s: string)
    ensures Flat([]) == "" && Flat([s]) == s
  {
    assert [s][1..] == [];
  }

  /** A thread that is inside a message stays where it is when another one moves. */
  lemma WriterStays(s: State, e: Event, x: nat)
    requires x in s.threads && s.threads[x].Broadcast? && !(e.Go? && e.tid == x && s.alive)
    ensures x in Step(s, e).threads && Step(s, e).threads[x] == s.threads[x]
  {
    if e.Go? && s.alive && e.tid in s.threads {
      OneThreadMoves(s, e.tid);
      hide StepThread;
    } else {
      hide Apply, StepThread;
    }
  }

  /** The steps that are the same in both systems leave the logs and the backups alone. */
  lemma SharedStep(s: State, e: Event)
    requires !e.ApplyNext? && (e.Go? ==> !AtSlot(s, e.tid))
    ensures Step(s, e).backups == s.backups
  {
    if LogStep(s, e) {
      hide StepThread;
      if s.alive { LoopEnds(s, e.tid); }
    } else {
      OtherBackups(s, e);
    }
  }

  lemma LoopEnds(s: State, tid: nat)
    requires tid in s.threads && s.threads[tid].Broadcast? && s.threads[tid].slot >= |s.backups|
    ensures StepThread(s, tid).backups == s.backups
  {
    hide IsFile;
  }

  /** The write that ends a message to slot k. */
  lemma LastWrite(s: State, tid: nat)
    requires AtSlot(s, tid)
    ensures
      var t, s' := s.threads[tid], Step(s, Go(tid));
      && s'.backups == s.backups[t.slot := s.backups[t.slot].(log := s.backups[t.slot].log + [t.message])]
      && s'.threads == s.threads[tid := Broadcast(t.message, t.slot + 1, t.next)] && s'.alive
  {}

  lemma WriteKeepsWired(w: Wired, tid: nat, padding: string, more: string)
    requires WiredInv(w) && Ready(w, tid)
    ensures WiredInv(WriteStep(w, tid, padding, more))
  {
    hide WritesOf, Bytes, MessageOk, Step;
    var c, k, w' := Current(w, tid, padding, more), w.s.threads[tid].slot, WriteStep(w, tid, padding, more);
    if |c.left| > 1 {
      assert tid in w.writing ==> WritingOk(w.s, tid, w.writing[tid]);
      assert WritingOk(w'.s, tid, w'.writing[tid]);
      forall x | x in w'.writing ensures WritingOk(w'.s, x, w'.writing[x]) {
        if x != tid { assert WritingOk(w.s, x, w.writing[x]); }
      }
    } else {
      LastWrite(w.s, tid);
      assert tid in w.writing ==> WritingOk(w.s, tid, w.writing[tid]);
      assert SentOk(w.sent[k], w.s.backups[k].log);
      assert Messages(w.sent[k] + [c.packet]) == w.s.backups[k].log + [c.packet.message];
      forall x | x in w'.writing ensures WritingOk(w'.s, x, w'.writing[x]) {
        assert WritingOk(w.s, x, w.writing[x]);
      }
    }
  }

  /** The thread's step of Cluster with no write, or an event of the clients. */
  lemma SharedKeepsWired(w: Wired, e: Event)
    requires WiredInv(w) && !e.ApplyNext? && (e.Go? ==> !AtSlot(w.s, e.tid))
    ensures WiredInv(w.(s := Step(w.s, e)))
  {
    SharedStep(w.s, e);
    hide Step, WritesOf, MessageOk, SentOk;
    forall x | x in w.writing ensures WritingOk(Step(w.s, e), x, w.writing[x]) {
      assert WritingOk(w.s, x, w.writing[x]);
      WriterStays(w.s, e, x);
    }
  }

  lemma ApplyShape(s: State, k: nat)
    ensures Step(s, ApplyNext(k)).threads == s.threads && Step(s, ApplyNext(k)).alive == s.alive
    ensures |Step(s, ApplyNext(k)).backups| == |s.backups|
    ensures forall i :: 0 <= i < |s.backups| ==> Step(s, ApplyNext(k)).backups[i].log == s.backups[i].log
    ensures forall i :: 0 <= i < |s.backups| && i != k ==> Step(s, ApplyNext(k)).backups[i] == s.backups[i]
  {
    hide Apply;
  }

  lemma ReceiveKeepsWired(w: Wired, k: nat)
    requires WiredInv(w) && k < |w.receivers| && ReceiveOne(w.receivers[k].unread).Some?
    ensures WiredInv(ReceiveStep(w, k))
  {
    ApplyShape(w.s, k);
    hide Step, ReceiveOne, Apply, WritesOf, MessageOk, SentOk;
    var w' := ReceiveStep(w, k);
    forall x | x in w'.writing ensures WritingOk(w'.s, x, w'.writing[x]) {
      assert WritingOk(w.s, x, w.writing[x]);
    }
  }

  lemma StepKeepsWired(w: Wired, e: WireEvent)
    requires WiredInv(w)
    ensures WiredInv(StepW(w, e))
  {
    hide WiredInv, WriteStep, ReceiveStep, Step, ReceiveOne, Ready, AtSlot;
    match e.event
    case ApplyNext(k) =>
      if k < |w.receivers| && ReceiveOne(w.receivers[k].unread).Some? { ReceiveKeepsWired(w, k); }
    case Go(tid) =>
      if !AtSlot(w.s, tid) { SharedKeepsWired(w, e.event); }
      else if Ready(w, tid) { WriteKeepsWired(w, tid, e.padding, e.more); }
    case _ => SharedKeepsWired(w, e.event);
  }

  // ---------- the stream of a slot ----------

  /** Nothing about the slot changes. */
  lemma SameStream(w: Wired, w': Wired, k: nat)
    requires StreamInv(w, k) && WiredInv(w') && k < |w'.sent|
    requires w'.sent[k] == w.sent[k] && w'.receivers[k] == w.receivers[k]
    requires w'.s.backups[k].applied == w.s.backups[k].applied && w'.s.backups[k].store == w.s.backups[k].store
    requires forall x :: WritesAt(w', x, k) <==> WritesAt(w, x, k)
    requires forall x :: WritesAt(w', x, k) && WritesAt(w, x, k) ==> w'.writing[x] == w.writing[x]
    ensures StreamInv(w', k)
  {
    hide AllBytes, Begun, WiredInv, WritesAt, Partial;
    if x :| WritesAt(w, x, k) {
      PartialIs(w, x, k);
      PartialIs(w', x, k);
      hide *;
      SameBegun(w, w', x, k);
    } else {
      NoPartial(w, k);
      NoPartial(w', k);
    }
  }

  lemma SameBegun(w: Wired, w': Wired, x: nat, k: nat)
    requires WiredInv(w) && WiredInv(w') && WritesAt(w, x, k) && WritesAt(w', x, k) && w'.writing[x] == w.writing[x]
    ensures BegunBy(w', x) == BegunBy(w, x)
  {}

  lemma SharedKeepsStream(w: Wired, e: Event, k: nat)
    requires StreamInv(w, k) && !e.ApplyNext? && (e.Go? ==> !AtSlot(w.s, e.tid))
    ensures StreamInv(w.(s := Step(w.s, e)), k)
  {
    var w' := w.(s := Step(w.s, e));
    StreamIsWired(w, k);
    SharedKeepsWired(w, e);
    SharedStep(w.s, e);
    hide Step, StreamInv, SentOk, WritesOf, MessageOk;
    forall x ensures WritesAt(w', x, k) <==> WritesAt(w, x, k) {
      if x in w.writing {
        assert WritingOk(w.s, x, w.writing[x]);
        WriterStays(w.s, e, x);
      }
    }
    SameStream(w, w', k);
  }

  lemma StreamIsWired(w: Wired, k: nat)
    requires StreamInv(w, k)
    ensures WiredInv(w) && k < |w.sent| && k < |w.receivers| && k < |w.s.backups|
    ensures w.s.backups[k].applied <= |w.sent[k]| && Lone(w, k)
  {}

  lemma OtherSlotStream(w: Wired, tid: nat, padding: string, more: string, k: nat)
    requires StreamInv(w, k) && Ready(w, tid) && w.s.threads[tid].slot != k
    ensures StreamInv(WriteStep(w, tid, padding, more), k)
  {
    StreamIsWired(w, k);
    WriteKeepsWired(w, tid, padding, more);
    OtherSlot(w, tid, padding, more, k);
    hide StreamInv, WriteStep, WritesOf, MessageOk, WiredInv, WritesAt, Ready;
    SameStream(w, WriteStep(w, tid, padding, more), k);
  }

  lemma OtherSlot(w: Wired, tid: nat, padding: string, more: string, k: nat)
    requires Ready(w, tid) && w.s.threads[tid].slot != k && k < |w.sent| && |w.receivers| == |w.s.backups| == |w.sent|
    ensures
      var w' := WriteStep(w, tid, padding, more);
      && |w'.receivers| == |w'.s.backups| == |w'.sent| == |w.sent|
      && w'.sent[k] == w.sent[k] && w'.receivers[k] == w.receivers[k] && w'.s.backups[k] == w.s.backups[k]
      && (forall x :: WritesAt(w', x, k) <==> WritesAt(w, x, k))
      && (forall x :: WritesAt(w', x, k) && WritesAt(w, x, k) ==> w'.writing[x] == w.writing[x])
  {
    hide Step, WritesOf, MessageOk;
    LastWrite(w.s, tid);
  }

  /** What is unread before a write by the only thread inside a message to the slot. */
  lemma BeforeWrite(w: Wired, tid: nat, padding: string, more: string, k: nat)
    requires StreamInv(w, k) && Ready(w, tid) && w.s.threads[tid].slot == k
    requires !Crosses(w, At(Go(tid), padding, more))
    ensures
      var c := Current(w, tid, padding, more);
      && WrittenPart(c)
      && w.receivers[k].unread == AllBytes(Unapplied(w, k)) + Begun(c)
      && (forall x :: WritesAt(w, x, k) ==> x == tid)
  {
    var c := Current(w, tid, padding, more);
    if tid in w.writing {
      assert WritesAt(w, tid, k);
      PartialIs(w, tid, k);
      assert WritingOk(w.s, tid, c);
    } else {
      assert WritesOf(c.packet)[..0] == [] && WritesOf(c.packet)[0..] == WritesOf(c.packet);
      assert Begun(c) == "";
      hide AllBytes, Begun, WritesOf, MessageOk;
      forall x ensures !WritesAt(w, x, k) {}
      NoPartial(w, k);
    }
  }

  /** What is left is an end of the message's writes. */
  ghost predicate WrittenPart(c: Writing) {
    && MessageOk(c.packet.message)
    && var ws := WritesOf(c.packet);
       0 < |c.left| <= |ws| && c.left == ws[|ws| - |c.left|..]
  }

  lemma OwnSlotStream(w: Wired, tid: nat, padding: string, more: string, k: nat)
    requires StreamInv(w, k) && Ready(w, tid) && w.s.threads[tid].slot == k
    requires !Crosses(w, At(Go(tid), padding, more))
    ensures StreamInv(WriteStep(w, tid, padding, more), k)
  {
    var c := Current(w, tid, padding, more);
    StreamIsWired(w, k);
    WriteKeepsWired(w, tid, padding, more);
    BeforeWrite(w, tid, padding, more, k);
    BegunGrows(c);
    StoresAgree(w, k);
    hide StreamInv, WritesOf, MessageOk, Bytes, AllBytes, Begun, WriteStep, WiredInv, Crosses, Step, Unapplied;
    Associative(AllBytes(Unapplied(w, k)), Begun(c), c.left[0]);
    if |c.left| > 1 { MiddleWrite(w, tid, padding, more, k); } else { FinalWrite(w, tid, padding, more, k); }
  }

  lemma StoresAgree(w: Wired, k: nat)
    requires StreamInv(w, k)
    ensures w.receivers[k].store == w.s.backups[k].store
  {}

  lemma MiddleWrite(w: Wired, tid: nat, padding: string, more: string, k: nat)
    requires WiredInv(w) && Ready(w, tid) && w.s.threads[tid].slot == k && WiredInv(WriteStep(w, tid, padding, more))
    requires w.s.backups[k].applied <= |w.sent[k]| && w.receivers[k].store == w.s.backups[k].store
    requires
      var c := Current(w, tid, padding, more);
      && |c.left| > 1 && WrittenPart(c)
      && w.receivers[k].unread + c.left[0] == AllBytes(Unapplied(w, k)) + Begun(Writing(c.packet, c.left[1..]))
    requires forall x :: WritesAt(w, x, k) ==> x == tid
    ensures StreamInv(WriteStep(w, tid, padding, more), k)
  {
    var w' := WriteStep(w, tid, padding, more);
    hide WiredInv, WritesOf, MessageOk, AllBytes, Begun, Step, WrittenPart, Partial;
    assert w'.s == w.s && w'.sent == w.sent;
    assert WritesAt(w', tid, k);
    forall x | WritesAt(w', x, k) ensures x == tid { assert x != tid ==> WritesAt(w, x, k); }
    PartialIs(w', tid, k);
  }

  lemma FinalWrite(w: Wired, tid: nat, padding: string, more: string, k: nat)
    requires WiredInv(w) && Ready(w, tid) && w.s.threads[tid].slot == k && WiredInv(WriteStep(w, tid, padding, more))
    requires w.s.backups[k].applied <= |w.sent[k]| && w.receivers[k].store == w.s.backups[k].store
    requires
      var c := Current(w, tid, padding, more);
      && |c.left| == 1 && MessageOk(c.packet.message)
      && w.receivers[k].unread + c.left[0] == AllBytes(Unapplied(w, k)) + Bytes(c.packet)
    requires forall x :: WritesAt(w, x, k) ==> x == tid
    ensures StreamInv(WriteStep(w, tid, padding, more), k)
  {
    hide WiredInv, WritesOf, MessageOk, AllBytes, Bytes, Begun, Step, Partial;
    var c, w' := Current(w, tid, padding, more), WriteStep(w, tid, padding, more);
    LastWrite(w.s, tid);
    AllBytesAppend(Unapplied(w, k), c.packet);
    assert Unapplied(w', k) == Unapplied(w, k) + [c.packet];
    forall x ensures !WritesAt(w', x, k) { assert WritesAt(w', x, k) ==> WritesAt(w, x, k); }
    NoPartial(w', k);
  }

  /** What has been written of an unfinished message is a proper part of it, and no round of the loop gets past it. */
  lemma BegunIsCut(c: Writing)
    requires WrittenPart(c)
    ensures |Begun(c)| < |Bytes(c.packet)| && Begun(c) == Bytes(c.packet)[..|Begun(c)|]
    ensures ReceiveOne(Begun(c)) == None
  {
    BegunGrows(c);
    LastWriteIsSome(c.packet);
    var ws := WritesOf(c.packet);
    hide Bytes, WritesOf, Begun, MessageOk, ReceiveOne;
    assert c.left[|c.left| - 1] == ws[|ws| - 1];
    FlatHasLast(c.left);
    SplitAt(Begun(c), Flat(c.left));
    ReceiveCut(c.packet, |Begun(c)|);
  }

  lemma FlatHasLast(ws: seq<string>)
    requires ws != [] && ws[|ws| - 1] != ""
    ensures Flat(ws) != ""
  {
    var n := |ws| - 1;
    assert ws == ws[..n] + [ws[n]];
    FlatConcat(ws[..n], [ws[n]]);
    assert Flat([ws[n]]) == ws[n] + Flat([]);
  }

  lemma {:induction false} LastChunkIsSome(data: string)
    requires data != ""
    ensures Chunks(data)[|Chunks(data)| - 1] != ""
    decreases |data|
  {
    if |data| > BUFFER_SIZE { LastChunkIsSome(data[BUFFER_SIZE..]); }
  }

  lemma LastWriteIsSome(p: Packet)
    requires MessageOk(p.message)
    ensures WritesOf(p)[|WritesOf(p)| - 1] != ""
  {
    HeaderParts(p, "");
    LastChunkIsSome(HeaderBytes(p));
    hide HeaderBytes, EncodeConnection, EncodeExit, Decode64, InfoOf;
    match p.message
    case UploadMsg(_, payload) => if payload != "" { LastChunkIsSome(payload); }
    case DeleteMsg(_) =>
    case _ => LastChunkIsSome(RecordBytes(p));
  }

  /** No round of the backup's loop gets past an unfinished message. */
  lemma PartialIsCut(w: Wired, k: nat)
    requires WiredInv(w) && Lone(w, k)
    ensures ReceiveOne(Partial(w, k)) == None
  {
    hide ReceiveOne, WritesOf, MessageOk, Begun;
    if x :| WritesAt(w, x, k) {
      PartialIs(w, x, k);
      assert WritingOk(w.s, x, w.writing[x]);
      BegunIsCut(w.writing[x]);
    } else {
      NoPartial(w, k);
      NothingReceived();
    }
  }

  lemma NothingReceived()
    ensures ReceiveOne("") == None
  {}

  /** A round of the backup's loop takes off the first message not applied, and does nothing if there is none. */
  lemma ReceiveKeepsStream(w: Wired, k: nat)
    requires StreamInv(w, k) && ReceiveOne(w.receivers[k].unread).Some?
    ensures StreamInv(ReceiveStep(w, k), k)
  {
    StreamIsWired(w, k);
    ReceiveKeepsWired(w, k);
    StoresAgree(w, k);
    var ps, partial := Unapplied(w, k), Partial(w, k);
    PartialIsCut(w, k);
    hide ReceiveOne, ReceiveStep, Partial, Bytes;
    assert AllBytes([]) + partial == partial;
    assert ps != [] by { hide WiredInv; }
    Associative(Bytes(ps[0]), AllBytes(ps[1..]), partial);
    ReceiveWhole(ps[0], AllBytes(ps[1..]) + partial);
    AfterReceive(w, k, AllBytes(ps[1..]) + partial);
  }

  lemma AfterReceive(w: Wired, k: nat, tail: string)
    requires WiredInv(w) && k < |w.sent| && w.s.backups[k].applied < |w.sent[k]| && Lone(w, k)
    requires w.receivers[k].store == w.s.backups[k].store
    requires ReceiveOne(w.receivers[k].unread) == Some((Got(Unapplied(w, k)[0].message), tail))
    requires tail == AllBytes(Unapplied(w, k)[1..]) + Partial(w, k) && WiredInv(ReceiveStep(w, k))
    ensures StreamInv(ReceiveStep(w, k), k)
  {
    var w' := ReceiveStep(w, k);
    ReceivesFirst(w, k, tail);
    hide ReceiveOne, AllBytes, WiredInv, Apply, Partial, ReceiveStep;
    assert Unapplied(w', k) == Unapplied(w, k)[1..];
    SamePartial(w, w', k);
  }

  /** What a round changes when it receives the first message not applied. */
  lemma ReceivesFirst(w: Wired, k: nat, tail: string)
    requires WiredInv(w) && k < |w.sent| && w.s.backups[k].applied < |w.sent[k]|
    requires w.receivers[k].store == w.s.backups[k].store
    requires ReceiveOne(w.receivers[k].unread) == Some((Got(Unapplied(w, k)[0].message), tail))
    ensures
      var w', b := ReceiveStep(w, k), w.s.backups[k];
      && w'.writing == w.writing && w'.sent == w.sent && w'.s.threads == w.s.threads
      && k < |w'.s.backups| && k < |w'.receivers| && |w'.s.backups| == |w.s.backups|
      && w'.s.backups[k].applied == b.applied + 1 && w'.s.backups[k].store == w'.receivers[k].store
      && w'.receivers[k].unread == tail
  {
    var b := w.s.backups[k];
    assert SentOk(w.sent[k], b.log);
    assert b.log[b.applied] == w.sent[k][b.applied].message;
    hide ReceiveOne, Apply, WritingOk, MessageOk;
    assert Step(w.s, ApplyNext(k)) == StepApply(w.s, k);
  }

  lemma SamePartial(w: Wired, w': Wired, k: nat)
    requires WiredInv(w) && WiredInv(w') && Lone(w, k) && w'.writing == w.writing
    requires forall x :: WritesAt(w', x, k) <==> WritesAt(w, x, k)
    ensures Lone(w', k) && Partial(w', k) == Partial(w, k)
  {
    hide WiredInv, Begun, WritesAt, Partial;
    if x :| WritesAt(w, x, k) {
      PartialIs(w, x, k);
      PartialIs(w', x, k);
    } else {
      NoPartial(w, k);
      NoPartial(w', k);
    }
  }

  lemma OtherReceive(w: Wired, j: nat, k: nat)
    requires StreamInv(w, k) && j != k && j < |w.receivers| && ReceiveOne(w.receivers[j].unread).Some?
    ensures StreamInv(ReceiveStep(w, j), k)
  {
    StreamIsWired(w, k);
    ReceiveKeepsWired(w, j);
    ApplyShape(w.s, j);
    hide StreamInv, WiredInv, ReceiveOne, Step, Apply;
    SameStream(w, ReceiveStep(w, j), k);
  }

  /** Every step that does not cross a message keeps every slot's stream in order. */
  lemma StepKeepsStream(w: Wired, e: WireEvent, k: nat)
    requires StreamInv(w, k) && !Crosses(w, e)
    ensures StreamInv(StepW(w, e), k)
  {
    hide StreamInv, WriteStep, ReceiveStep, Step, ReceiveOne, Crosses, MessageOk;
    match e.event
    case ApplyNext(j) =>
      if j < |w.receivers| && ReceiveOne(w.receivers[j].unread).Some? {
        if j == k { ReceiveKeepsStream(w, k); } else { OtherReceive(w, j, k); }
      }
    case Go(tid) =>
      if !AtSlot(w.s, tid) {
        SharedKeepsStream(w, e.event, k);
      } else if Ready(w, tid) {
        assert e == At(Go(tid), e.padding, e.more);
        if w.s.threads[tid].slot == k {
          OwnSlotStream(w, tid, e.padding, e.more, k);
        } else {
          OtherSlotStream(w, tid, e.padding, e.more, k);
        }
      }
    case _ => SharedKeepsStream(w, e.event, k);
  }

  lemma {:induction false} RunKeepsStream(w: Wired, es: seq<WireEvent>, k: nat)
    requires StreamInv(w, k) && Uncrossed(w, es)
    ensures StreamInv(RunW(w, es), k)
  {
    hide StreamInv, StepW, Crosses;
    if es != [] {
      RunKeepsStream(w, es[..|es| - 1], k);
      StepKeepsStream(RunW(w, es[..|es| - 1]), es[|es| - 1], k);
    }
  }

  /** In every run, crossed or not, the primary and its logs go through steps of Cluster. */
  lemma StepIsCluster(w: Wired, e: WireEvent)
    ensures StepW(w, e).s == w.s || StepW(w, e).s == Step(w.s, e.event)
  {
    hide Step, ReceiveOne;
  }

  lemma {:induction false} RunIsCluster(w: Wired, es: seq<WireEvent>)
    requires WiredInv(w) && ClusterInv(w.s) && AllLegalW(w, es)
    ensures WiredInv(RunW(w, es)) && ClusterInv(RunW(w, es).s)
    ensures |RunW(w, es).sent| == |w.sent|
  {
    hide WiredInv, ClusterInv, StepW, Legal;
    if es != [] {
      var w1, e := RunW(w, es[..|es| - 1]), es[|es| - 1];
      RunIsCluster(w, es[..|es| - 1]);
      StepKeepsWired(w1, e);
      StepIsCluster(w1, e);
      StepInv(w1.s, e.event);
      SameSlotsW(w1, e);
    }
  }

  lemma SameSlotsW(w: Wired, e: WireEvent)
    ensures |StepW(w, e).sent| == |w.sent|
  {
    hide Step, ReceiveOne;
  }

  lemma StartStream(ids: seq<int>, refusalReleases: bool, k: nat)
    ensures WiredInv(StartW(ids, refusalReleases)) && |StartW(ids, refusalReleases).sent| == |ids|
    ensures k < |ids| ==> StreamInv(StartW(ids, refusalReleases), k)
  {
    var w := StartW(ids, refusalReleases);
    assert Messages([]) == [];
    assert WiredInv(w);
    if k < |ids| {
      NoPartial(w, k);
      hide Partial;
    }
  }
}
