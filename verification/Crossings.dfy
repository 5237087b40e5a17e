/** What a message does to another one that it crosses on a backup's socket, where the two locks exclude nobody. */
module Crossings {
  import opened Limits
  import opened SessionTable
  import opened Wire
  import opened Disk
  import opened Cluster
  import opened ClusterLocks
  import opened ClusterLogs
  import opened ClusterTables
  import opened ClusterCausal
  import opened ClusterFiles
  import opened ClusterTheorems
  import opened ClusterRuns
  import opened ClusterReached
  import opened MessageBytes
  import opened BackupStreams
  import opened BackupRuns
  import opened CrossedBytes

  // ---------- where a thread can be inside its message ----------

  /** The first n of two lists of writes. */
  lemma FirstWrites(hs: seq<string>, more: seq<string>, n: nat)
    requires n <= |hs + more| && more != []
    ensures n <= |hs| ==> |Flat((hs + more)[..n])| <= |Flat(hs)|
    ensures n == |hs| ==> Flat((hs + more)[..n]) == Flat(hs)
    ensures n > |hs| ==> |Flat((hs + more)[..n])| >= |Flat(hs)| + |more[0]|
    ensures n == |hs| + 1 ==> |Flat((hs + more)[..n])| == |Flat(hs)| + |more[0]|
  {
    var ws := hs + more;
    if n <= |hs| {
      assert ws[..n] == hs[..n] && hs == hs[..n] + hs[n..];
      FlatConcat(hs[..n], hs[n..]);
    } else {
      var some := more[..n - |hs|];
      assert ws[..n] == hs + some && some[0] == more[0];
      FlatConcat(hs, some);
      assert Flat(some) == more[0] + Flat(some[1..]);
      assert n == |hs| + 1 ==> some[1..] == [];
    }
    hide Flat;
  }

  /** The writes behind the header of a message that has a body. */
  lemma BodyWrites(p: Packet) returns (more: seq<string>)
    requires MessageOk(p.message) && !p.message.DeleteMsg?
    ensures more != [] && more[0] != "" && WritesOf(p) == Chunks(HeaderBytes(p)) + more
    ensures p.message.UploadMsg? ==> |more[0]| == 8 && (p.message.payload != "" ==> |more| > 1)
    ensures !IsFile(p.message) ==> more == Chunks(RecordBytes(p))
    ensures |HeaderBytes(p)| == HEADER && Flat(Chunks(HeaderBytes(p))) == HeaderBytes(p)
  {
    HeaderParts(p, "");
    ChunksFlat(HeaderBytes(p));
    hide Chunks, HeaderBytes, Encode64, EncodeConnection, EncodeExit, Flat;
    if p.message.UploadMsg? {
      more := [Encode64(|p.message.payload|)] + (if p.message.payload == "" then [] else Chunks(p.message.payload));
    } else {
      FirstChunkIsSome(RecordBytes(p));
      more := Chunks(RecordBytes(p));
    }
  }

  lemma FirstChunkIsSome(data: string)
    requires data != ""
    ensures Chunks(data)[0] != ""
  {}

  /** How many writes of the message are done. */
  function Done(c: Writing): nat
    requires WrittenPart(c)
  {
    |WritesOf(c.packet)| - |c.left|
  }

  function HeaderWrites(p: Packet): nat
    requires MessageOk(p.message)
  {
    |Chunks(HeaderBytes(p))|
  }

  /** The message with its first i writes done. */
  function DoneTo(c: Writing, i: nat): (c': Writing)
    requires WrittenPart(c) && Done(c) <= i < |WritesOf(c.packet)|
    ensures WrittenPart(c') && Done(c') == i && c'.packet == c.packet && |c'.left| <= |WritesOf(c'.packet)|
  {
    hide WritesOf, MessageOk;
    Writing(c.packet, c.left[i - Done(c)..])
  }

  lemma BegunIs(c: Writing)
    requires WrittenPart(c)
    ensures Begun(c) == Flat(WritesOf(c.packet)[..Done(c)])
  {
    hide WritesOf, Flat;
  }

  /** What the number of writes done says about the bytes written. */
  lemma Progress(c: Writing)
    requires WrittenPart(c)
    ensures |Begun(c)| < |Bytes(c.packet)|
    ensures !c.packet.message.DeleteMsg? ==> HeaderWrites(c.packet) < |WritesOf(c.packet)|
    ensures !c.packet.message.DeleteMsg? && Done(c) <= HeaderWrites(c.packet) ==> |Begun(c)| <= HEADER
    ensures !c.packet.message.DeleteMsg? && Done(c) == HeaderWrites(c.packet) ==> |Begun(c)| == HEADER
    ensures !c.packet.message.DeleteMsg? && Done(c) > HeaderWrites(c.packet) ==> |Begun(c)| > HEADER
    ensures c.packet.message.UploadMsg? && Done(c) > HeaderWrites(c.packet) ==> |Begun(c)| >= HEADER + 8
    ensures c.packet.message.UploadMsg? && Done(c) == HeaderWrites(c.packet) + 1 ==> |Begun(c)| == HEADER + 8
    ensures c.packet.message.UploadMsg? && c.packet.message.payload != "" ==> HeaderWrites(c.packet) + 1 < |WritesOf(c.packet)|
  {
    var p := c.packet;
    BegunIsCut(c);
    BegunIs(c);
    hide Bytes, Begun, WritesOf, MessageOk, Chunks, HeaderBytes, Flat;
    if !p.message.DeleteMsg? {
      var more := BodyWrites(p);
      FirstWrites(Chunks(HeaderBytes(p)), more, Done(c));
    }
  }

  lemma SomeIsBegun(c: Writing)
    requires WrittenPart(c) && Done(c) > 0
    ensures Begun(c) != ""
  {
    var ws := WritesOf(c.packet);
    var n := Done(c);
    HeaderParts(c.packet, "");
    BegunIs(c);
    hide HeaderBytes, MessageOk, Begun;
    FirstChunkIsSome(HeaderBytes(c.packet));
    hide Chunks, WritesOf;
    assert ws[..n][0] == ws[0];
  }

  /** Inside a record, no chunk is longer than what was written of the record. */
  lemma {:induction false} NextChunk(data: string, n: nat)
    requires 0 < n < |Chunks(data)|
    ensures |Chunks(data)[n]| <= |Flat(Chunks(data)[..n])|
  {
    var cs := Chunks(data);
    var rest := Chunks(data[BUFFER_SIZE..]);
    assert cs == [data[..BUFFER_SIZE]] + rest && cs[..n][0] == cs[0] && cs[..n][1..] == rest[..n - 1];
    assert |Flat(cs[..n])| >= BUFFER_SIZE;
    ChunkFits(data, n);
  }

  lemma {:induction false} ChunkFits(data: string, n: nat)
    requires n < |Chunks(data)|
    ensures |Chunks(data)[n]| <= BUFFER_SIZE
  {
    if |data| > BUFFER_SIZE && n > 0 {
      assert Chunks(data)[n] == Chunks(data[BUFFER_SIZE..])[n - 1];
      ChunkFits(data[BUFFER_SIZE..], n - 1);
    }
  }

  lemma NextOfRecord(c: Writing)
    requires WrittenPart(c) && !IsFile(c.packet.message) && Done(c) > HeaderWrites(c.packet)
    ensures |c.left[0]| <= |Begun(c)| - HEADER
  {
    hide *;
    RecordWrites(c);
    BegunIs(c);
    var hs, cs := Chunks(HeaderBytes(c.packet)), Chunks(RecordBytes(c.packet));
    var n := Done(c) - |hs|;
    assert (hs + cs)[..Done(c)] == hs + cs[..n];
    FlatConcat(hs, cs[..n]);
    NextChunk(RecordBytes(c.packet), n);
  }

  lemma RecordWrites(c: Writing)
    requires WrittenPart(c) && !IsFile(c.packet.message) && Done(c) > HeaderWrites(c.packet)
    ensures
      var hs, cs := Chunks(HeaderBytes(c.packet)), Chunks(RecordBytes(c.packet));
      && WritesOf(c.packet) == hs + cs && |Flat(hs)| == HEADER
      && HeaderWrites(c.packet) == |hs| && |hs| < Done(c) < |hs + cs| && c.left != [] && c.left[0] == (hs + cs)[Done(c)]
      && !c.packet.message.DeleteMsg? && MessageOk(c.packet.message)
  {
    var more := BodyWrites(c.packet);
    hide WritesOf, Chunks, HeaderBytes, RecordBytes, Flat, MessageOk;
  }

  /** One write more. */
  lemma OneMore(c: Writing)
    requires WrittenPart(c)
    ensures Done(c) + 1 == |WritesOf(c.packet)| ==> |Begun(c)| + |c.left[0]| == |Bytes(c.packet)|
    ensures
      var i := Done(c) + 1;
      i < |WritesOf(c.packet)| ==> |Begun(DoneTo(c, i))| == |Begun(c)| + |c.left[0]|
  {
    BegunGrows(c);
    hide WritesOf, Bytes, Begun, MessageOk;
  }

  lemma DoneFurther(c: Writing, i: nat, j: nat)
    requires WrittenPart(c) && Done(c) <= i <= j < |WritesOf(c.packet)|
    ensures DoneTo(DoneTo(c, i), j) == DoneTo(c, j) && DoneTo(c, Done(c)) == c
  {
    hide WritesOf, MessageOk;
  }

  /** A login goes on until more than 16 bytes of its record are written. */
  lemma {:induction false} IntoRecord(c: Writing) returns (i: nat)
    requires WrittenPart(c) && c.packet.message.InsertMsg? && Done(c) > HeaderWrites(c.packet)
    ensures Done(c) <= i < |WritesOf(c.packet)| && Breakable(c.packet, |Begun(DoneTo(c, i))|)
    decreases |c.left|
  {
    Progress(c);
    Length(c.packet);
    i := Done(c);
    DoneFurther(c, i, i);
    hide WrittenPart, Begun, Bytes, WritesOf, MessageOk, HeaderWrites, DoneTo;
    if |Begun(c)| <= HEADER + 16 {
      NextOfRecord(c);
      OneMore(c);
      var c' := DoneTo(c, i + 1);
      Shorter(c);
      i := IntoRecord(c');
      DoneFurther(c, Done(c'), i);
    }
  }

  lemma Shorter(c: Writing)
    requires WrittenPart(c) && Done(c) + 1 < |WritesOf(c.packet)|
    ensures |DoneTo(c, Done(c) + 1).left| < |c.left| && DoneTo(c, Done(c) + 1).packet == c.packet
  {
    hide WritesOf, MessageOk;
  }

  /** From anywhere inside a message a thread gets to a place where some padding of the other message breaks it. */
  lemma SomePlace(c: Writing) returns (i: nat)
    requires WrittenPart(c) && Done(c) > 0
    ensures Done(c) <= i < |WritesOf(c.packet)| && Breakable(c.packet, |Begun(DoneTo(c, i))|)
  {
    var p, n := c.packet, Done(c);
    Progress(c);
    Length(p);
    SomeIsBegun(c);
    DoneFurther(c, n, n);
    hide Begun, Bytes, WritesOf, MessageOk, HeaderWrites, DoneTo, Done, WrittenPart;
    if p.message.InsertMsg? && n > HeaderWrites(p) {
      i := IntoRecord(c);
    } else {
      i := if p.message.DeleteMsg? then n
           else if p.message.UploadMsg? && p.message.payload != "" && n <= HeaderWrites(p) then HeaderWrites(p) + 1
           else if n < HeaderWrites(p) then HeaderWrites(p)
           else n;
      Progress(DoneTo(c, i));
    }
  }

  /** Where a message is when another one, once it is written, is in the middle of it: a header goes on to its end if a
      body follows. */
  function CutAt(m: Message, done: nat): nat {
    if m.DeleteMsg? || done >= HEADER then done else HEADER
  }

  lemma CutPlace(c: Writing) returns (i: nat)
    requires WrittenPart(c) && Done(c) > 0 && (IsFile(c.packet.message) || |Begun(c)| <= HEADER)
    ensures Done(c) <= i < |WritesOf(c.packet)|
    ensures
      var j := |Begun(DoneTo(c, i))|;
      Cut(c.packet, j) && j == CutAt(c.packet.message, |Begun(c)|)
  {
    var p, n := c.packet, Done(c);
    Progress(c);
    Length(p);
    SomeIsBegun(c);
    DoneFurther(c, n, n);
    hide Begun, Bytes, WritesOf, MessageOk, HeaderWrites, DoneTo, Done, WrittenPart;
    i := if p.message.DeleteMsg? || n > HeaderWrites(p) then n else HeaderWrites(p);
    Progress(DoneTo(c, i));
  }

  // ---------- every crossing ----------

  /** A thread is inside a message to the slot, and another one is about to begin a message there. */
  ghost predicate AboutToCross(w: Wired, a: nat, b: nat, k: nat) {
    && StreamInv(w, k) && WritesAt(w, a, k)
    && a != b && b !in w.writing && AtSlot(w.s, b) && w.s.threads[b].slot == k && MessageOk(w.s.threads[b].message)
  }

  lemma CrossingReady(w: Wired, a: nat, b: nat, k: nat)
    requires AboutToCross(w, a, b, k)
    ensures Ready(w, a) && Ready(w, b) && w.s.threads[a].slot == k && w.s.threads[b].slot == k && a != b
    ensures a in w.writing && b !in w.writing && WrittenPart(w.writing[a]) && Done(w.writing[a]) > 0
    ensures w.writing[a].packet.message == w.s.threads[a].message
    ensures MessageOk(w.s.threads[a].message) && MessageOk(w.s.threads[b].message)
    ensures forall x :: WritesAt(w, x, k) ==> x == a
  {
    StreamIsWired(w, k);
    assert WritingOk(w.s, a, w.writing[a]);
    hide WritesOf, StreamInv, MessageOk;
  }

  /** The two threads hold different locks. */
  lemma OtherClass(w: Wired, a: nat, b: nat, k: nat)
    requires AboutToCross(w, a, b, k) && ClusterInv(w.s)
    ensures a in w.s.threads && w.s.threads[a].Broadcast? && b in w.s.threads && w.s.threads[b].Broadcast?
    ensures IsFile(w.s.threads[a].message) != IsFile(w.s.threads[b].message)
    ensures IsFile(w.s.threads[b].message) ==> Deep(w.s.threads[b].message.path)
  {
    CrossingReady(w, a, b, k);
    OneLock(w.s, a, b);
    hide AboutToCross, ClusterInv, Ready, WrittenPart;
    if IsFile(w.s.threads[b].message) { PathIsDeep(w.s, b); }
  }

  lemma OneLock(s: State, a: nat, b: nat)
    requires ClusterInv(s) && a != b && a in s.threads && b in s.threads && s.threads[a].Broadcast? && s.threads[b].Broadcast?
    ensures IsFile(s.threads[a].message) != IsFile(s.threads[b].message)
  {
    ThreadControl(s, a);
    ThreadControl(s, b);
    hide ControlInv, LogsInv, TablesInv, StoresInv, CausalInv;
  }

  lemma PathIsDeep(s: State, b: nat)
    requires ClusterInv(s) && b in s.threads && s.threads[b].Broadcast? && IsFile(s.threads[b].message)
    ensures Deep(s.threads[b].message.path)
  {
    var t := s.threads[b];
    assert ThreadKnown(s, t) && ThreadOk(t) by {
      hide LogsInv, TablesInv, StoresInv, ThreadKnown, ThreadOk;
      ThreadControl(s, b);
    }
    hide ControlInv, LogsInv, TablesInv, StoresInv, CausalInv, Known, Announced;
    DirIsPrefix(t.message.path);
    assert DirOf(t.message.path)[10] == '/';
  }

  lemma {:induction false} DirIsPrefix(path: string)
    ensures DirOf(path) != "" ==> |DirOf(path)| < |path| && path[..|DirOf(path)|] == DirOf(path)
  {
    if path != "" && path[|path| - 1] != '/' { DirIsPrefix(path[..|path| - 1]); }
  }

  /** The thread that is inside its message does more of its writes, and nothing else changes. */
  lemma MovesOn(w: Wired, a: nat, b: nat, k: nat, i: nat) returns (es: seq<WireEvent>)
    requires AboutToCross(w, a, b, k) && a in w.writing && WrittenPart(w.writing[a])
    requires Done(w.writing[a]) <= i < |WritesOf(w.writing[a].packet)|
    ensures AllLegalW(w, es)
    ensures
      var w' := RunW(w, es);
      && w'.s == w.s && AboutToCross(w', a, b, k)
      && a in w'.writing && w'.writing[a] == DoneTo(w.writing[a], i)
  {
    hide *;
    CrossingReady(w, a, b, k);
    var n := i - Done(w.writing[a]);
    Remaining(w.writing[a], i);
    es := SomeWrites(w, a, n);
    StillAbout(w, a, b, k, n, es);
    FurtherIs(w, a, n);
  }

  lemma Remaining(c: Writing, i: nat)
    requires WrittenPart(c) && Done(c) <= i < |WritesOf(c.packet)|
    ensures i - Done(c) < |c.left| && DoneTo(c, i) == Writing(c.packet, c.left[i - Done(c)..])
  {
    hide WritesOf, MessageOk;
  }

  lemma FurtherIs(w: Wired, a: nat, n: nat)
    requires Ready(w, a) && a in w.writing && n < |w.writing[a].left|
    ensures
      var w', c := Further(w, a, n), w.writing[a];
      w'.s == w.s && a in w'.writing && w'.writing[a] == Writing(c.packet, c.left[n..])
  {
    hide Arrives, MessageOk;
  }

  lemma StillAbout(w: Wired, a: nat, b: nat, k: nat, n: nat, es: seq<WireEvent>)
    requires AboutToCross(w, a, b, k) && Ready(w, a) && a in w.writing && n < |w.writing[a].left|
    requires RunW(w, es) == Further(w, a, n) && Uncrossed(w, es)
    ensures AboutToCross(Further(w, a, n), a, b, k)
  {
    RunKeepsStream(w, es, k);
    hide StreamInv, RunW, Uncrossed, MessageOk;
  }

  /** The whole other message, and the rest of the one it crosses. */
  lemma OtherThenRest(w: Wired, a: nat, b: nat, k: nat, padding: string, more: string) returns (es: seq<WireEvent>)
    requires a != b && Ready(w, a) && Ready(w, b) && a in w.writing && b !in w.writing
    requires w.s.threads[a].slot == w.s.threads[b].slot == k
    ensures AllLegalW(w, es)
    ensures
      var w', c, p := RunW(w, es), w.writing[a], Packet(w.s.threads[b].message, padding, more);
      && k < |w'.s.backups| && k < |w'.receivers|
      && w'.s.backups[k].log == w.s.backups[k].log + [p.message] + [w.s.threads[a].message]
      && w'.s.backups[k].applied == w.s.backups[k].applied
      && w'.receivers[k].unread == w.receivers[k].unread + Bytes(p) + Flat(c.left)
  {
    var p := Packet(w.s.threads[b].message, padding, more);
    WritesAreBytes(p);
    var other := AllWrites(w, b, padding, more);
    assert Current(w, b, padding, more) == Writing(p, WritesOf(p));
    LastWrite(w.s, b);
    hide AllLegalW, RunW, Uncrossed, WritesOf, Bytes, MessageOk, Step;
    var w1 := Finished(w, b, Writing(p, WritesOf(p)));
    assert w1.writing[a] == w.writing[a] && Ready(w1, a);
    var rest := AllWrites(w1, a, "", "");
    LastWrite(w1.s, a);
    RunConcatW(w, other, rest);
    es := other + rest;
  }

  /** What a backup has received after that, from the messages before the two on. */
  ghost predicate ReceivesSpliced(w: Wired, w': Wired, a: nat, k: nat, p: Packet)
    requires a in w.writing && WrittenPart(w.writing[a]) && MessageOk(p.message)
    requires |Begun(w.writing[a])| <= |Bytes(w.writing[a].packet)|
  {
    var c := w.writing[a];
    && k < |w.s.backups| && k < |w'.s.backups| && k < |w'.receivers| && w.s.backups[k].applied <= |w.s.backups[k].log|
    && w'.s.backups[k].log == w.s.backups[k].log + [p.message] + [c.packet.message]
    && w'.s.backups[k].applied == w.s.backups[k].applied
    && ReceiveAll(w'.receivers[k].unread).0 ==
         Gots(w.s.backups[k].log[w.s.backups[k].applied..]) + ReceiveAll(Spliced(c.packet, |Begun(c)|, p)).0
  }

  lemma Splices(w: Wired, a: nat, b: nat, k: nat, padding: string, more: string) returns (es: seq<WireEvent>)
    requires AboutToCross(w, a, b, k)
    ensures a in w.writing && WrittenPart(w.writing[a]) && |Begun(w.writing[a])| <= |Bytes(w.writing[a].packet)|
    ensures Ready(w, b) && AllLegalW(w, es)
    ensures ReceivesSpliced(w, RunW(w, es), a, k, Packet(w.s.threads[b].message, padding, more))
  {
    CrossingReady(w, a, b, k);
    UnreadIs(w, a, b, k);
    var c, p := w.writing[a], Packet(w.s.threads[b].message, padding, more);
    hide AboutToCross, AllLegalW, RunW, WritesOf, Bytes, MessageOk, Step, WrittenPart, Begun, Flat, AllBytes, Unapplied,
      ReceiveAll, Gots;
    es := OtherThenRest(w, a, b, k, padding, more);
    var before := Unapplied(w, k);
    Regroups(AllBytes(before), Begun(c), Bytes(p), Flat(c.left));
    ReceiveStream(before, Begun(c) + (Bytes(p) + Flat(c.left)));
    Halves(c, p);
  }

  lemma UnreadIs(w: Wired, a: nat, b: nat, k: nat)
    requires AboutToCross(w, a, b, k) && a in w.writing && WrittenPart(w.writing[a])
    ensures WiredInv(w) && k < |w.sent| && k < |w.receivers| && k < |w.s.backups| && w.s.backups[k].applied <= |w.sent[k]|
    ensures w.s.backups[k].applied <= |w.s.backups[k].log|
    ensures Messages(Unapplied(w, k)) == w.s.backups[k].log[w.s.backups[k].applied..]
    ensures w.receivers[k].unread == AllBytes(Unapplied(w, k)) + Begun(w.writing[a])
  {
    StreamIsWired(w, k);
    UnappliedAre(w, k);
    PartialIs(w, a, k);
    hide WiredInv, Begun, Partial, Unapplied, AllBytes, WrittenPart;
  }

  lemma Halves(c: Writing, p: Packet)
    requires WrittenPart(c) && MessageOk(p.message)
    ensures |Begun(c)| <= |Bytes(c.packet)|
    ensures Begun(c) + (Bytes(p) + Flat(c.left)) == Spliced(c.packet, |Begun(c)|, p)
  {
    BegunGrows(c);
    SplitAt(Begun(c), Flat(c.left));
    hide Bytes, Begun, WritesOf, Flat;
  }

  lemma Regroups(a: string, b: string, c: string, d: string)
    ensures a + b + c + d == a + (b + (c + d))
  {
    Associative(a, b, c);
    Associative(a, b + c, d);
    Associative(b, c, d);
  }

  /** From every such state there is a run in which the other message is written whole in the middle. The backup then
      receives the messages before the two, and next, for the message in the middle of which it was written, what Instead
      says; that is the message itself exactly when Survives says so. */
  lemma CrossingCorrupts(w: Wired, a: nat, b: nat, k: nat, padding: string, more: string) returns (es: seq<WireEvent>)
    requires AboutToCross(w, a, b, k) && ClusterInv(w.s)
    requires a in w.writing && WrittenPart(w.writing[a])
    requires !IsFile(w.writing[a].packet.message) ==> |Begun(w.writing[a])| <= HEADER
    ensures AllLegalW(w, es) && Ready(w, b)
    ensures
      var w', v, p := RunW(w, es), w.writing[a].packet, Packet(w.s.threads[b].message, padding, more);
      var j, log := CutAt(v.message, |Begun(w.writing[a])|), w.s.backups[k].log;
      && k < |w'.s.backups| && k < |w'.receivers| && w.s.backups[k].applied <= |log|
      && w'.s.backups[k].log == log + [p.message] + [v.message] && w'.s.backups[k].applied == w.s.backups[k].applied
      && Cut(v, j) && j <= |Bytes(v)| && |Bytes(p)| >= HEADER && IsFile(v.message) != IsFile(p.message)
      && var rs, n := ReceiveAll(w'.receivers[k].unread).0, |log| - w.s.backups[k].applied;
      && n < |rs| && rs[..n] == Gots(log[w.s.backups[k].applied..])
      && rs[n] == Instead(v, j, p) && (rs[n] == Got(v.message) <==> Survives(v, j, p))
  {
    hide *;
    CrossingReady(w, a, b, k);
    OtherClass(w, a, b, k);
    var c, v, p := w.writing[a], w.writing[a].packet, Packet(w.s.threads[b].message, padding, more);
    var i := CutPlace(c);
    var on := MovesOn(w, a, b, k, i);
    var w1 := RunW(w, on);
    var rest := Splices(w1, a, b, k, padding, more);
    RunConcatW(w, on, rest);
    es := on + rest;
    var j := |Begun(w1.writing[a])|;
    ReceiveInstead(v, j, p);
    SurvivesExactly(v, j, p);
    FirstReceived(Spliced(v, j, p));
    NextIs(w1, RunW(w1, rest), a, k, p);
  }

  lemma NextIs(w: Wired, w': Wired, a: nat, k: nat, p: Packet)
    requires a in w.writing && WrittenPart(w.writing[a]) && MessageOk(p.message)
    requires |Begun(w.writing[a])| <= |Bytes(w.writing[a].packet)|
    requires ReceivesSpliced(w, w', a, k, p) && ReceiveAll(Spliced(w.writing[a].packet, |Begun(w.writing[a])|, p)).0 != []
    ensures
      var v, log := w.writing[a].packet, w.s.backups[k].log;
      && k < |w.s.backups| && k < |w'.s.backups| && k < |w'.receivers| && w.s.backups[k].applied <= |log|
      && w'.s.backups[k].log == log + [p.message] + [v.message] && w'.s.backups[k].applied == w.s.backups[k].applied
      && var rs, n := ReceiveAll(w'.receivers[k].unread).0, |log| - w.s.backups[k].applied;
      && n < |rs| && rs[..n] == Gots(log[w.s.backups[k].applied..])
      && rs[n] == ReceiveAll(Spliced(v, |Begun(w.writing[a])|, p)).0[0]
  {
    hide ReceiveAll, Spliced, Begun, Bytes, WrittenPart, MessageOk;
  }

  /** What a backup is to receive from here on, against what it does receive. */
  ghost predicate Corrupted(w: Wired, k: nat) {
    && k < |w.receivers| && k < |w.s.backups| && w.s.backups[k].applied <= |w.s.backups[k].log|
    && exists n :: CorruptedAt(ReceiveAll(w.receivers[k].unread).0, w.s.backups[k].log[w.s.backups[k].applied..], n)
  }

  /** Behind n messages received as sent, something is received in the place of one of the next two that is neither. */
  predicate CorruptedAt(rs: seq<Received>, ms: seq<Message>, n: nat) {
    n + 1 < |ms| && n <= |rs| && rs[..n] == Gots(ms[..n]) && Deviates(rs[n..], ms[n], ms[n + 1])
  }

  /** From every state in which a message is about to cross another one, whatever the two are and wherever the first one
      has got to, some run has the backup receive something that is neither of the two in the place of one of them. */
  lemma CrossingBreaks(w: Wired, a: nat, b: nat, k: nat) returns (es: seq<WireEvent>)
    requires AboutToCross(w, a, b, k) && ClusterInv(w.s)
    ensures AllLegalW(w, es) && Corrupted(RunW(w, es), k)
  {
    hide *;
    CrossingReady(w, a, b, k);
    OtherClass(w, a, b, k);
    var c, v, m := w.writing[a], w.writing[a].packet, w.s.threads[b].message;
    var i := SomePlace(c);
    var on := MovesOn(w, a, b, k, i);
    var w1 := RunW(w, on);
    var padding := SomePadding(v, |Begun(w1.writing[a])|, m);
    var rest := Splices(w1, a, b, k, padding, "");
    RunConcatW(w, on, rest);
    es := on + rest;
    IsCorrupted(w1, RunW(w1, rest), a, k, Packet(m, padding, ""));
  }

  lemma IsCorrupted(w: Wired, w': Wired, a: nat, k: nat, p: Packet)
    requires a in w.writing && WrittenPart(w.writing[a]) && MessageOk(p.message)
    requires |Begun(w.writing[a])| <= |Bytes(w.writing[a].packet)|
    requires ReceivesSpliced(w, w', a, k, p)
    requires Deviates(ReceiveAll(Spliced(w.writing[a].packet, |Begun(w.writing[a])|, p)).0, w.writing[a].packet.message, p.message)
    ensures Corrupted(w', k)
  {
    var v, log, at := w.writing[a].packet, w.s.backups[k].log, w.s.backups[k].applied;
    var rs, ms, n := ReceiveAll(w'.receivers[k].unread).0, w'.s.backups[k].log[at..], |log| - at;
    var ts := ReceiveAll(Spliced(v, |Begun(w.writing[a])|, p)).0;
    hide ReceiveAll, Spliced, Begun, Bytes, WrittenPart, MessageOk;
    assert ms[..n] == log[at..] && ms[n] == p.message && ms[n + 1] == v.message;
    assert rs[..n] == Gots(ms[..n]) && rs[n..] == ts;
    assert CorruptedAt(rs, ms, n);
  }

  // ---------- a run into such a state ----------

  /** After its first write a thread is inside its message, and another thread at the slot is about to cross it. */
  lemma FirstWrite(w: Wired, a: nat, b: nat, k: nat) returns (es: seq<WireEvent>)
    requires StreamInv(w, k) && w.writing == map[] && Ready(w, a) && Ready(w, b) && a != b
    requires w.s.threads[a].slot == w.s.threads[b].slot == k
    requires w.s.threads[a].message.DeleteMsg? ==> BUFFER_SIZE < HEADER
    ensures AllLegalW(w, es) && RunW(w, es).s == w.s && AboutToCross(RunW(w, es), a, b, k)
  {
    var e := At(Go(a), "", "");
    assert Legal(w.s, e.event);
    hide *;
    FirstOf(w, a, b);
    StepKeepsStream(w, e, k);
    NowAbout(w, StepW(w, e), a, b, k);
    RunOneW(w, e);
    es := [e];
  }

  lemma FirstOf(w: Wired, a: nat, b: nat)
    requires w.writing == map[] && Ready(w, a) && a != b && (w.s.threads[a].message.DeleteMsg? ==> BUFFER_SIZE < HEADER)
    ensures
      var e, p := At(Go(a), "", ""), Packet(w.s.threads[a].message, "", "");
      var w1 := StepW(w, e);
      !Crosses(w, e) && w1.s == w.s && w1.writing == map[a := Writing(p, WritesOf(p)[1..])]
  {
    var p := Packet(w.s.threads[a].message, "", "");
    ManyWrites(p);
    hide WritesOf, MessageOk, Step;
    OneWrite(w, a, "", "");
  }

  lemma NowAbout(w: Wired, w1: Wired, a: nat, b: nat, k: nat)
    requires StreamInv(w1, k) && w1.s == w.s && Ready(w, a) && Ready(w, b) && a != b
    requires w.s.threads[a].slot == w.s.threads[b].slot == k && a in w1.writing && b !in w1.writing
    ensures AboutToCross(w1, a, b, k)
  {
    hide StreamInv, MessageOk;
  }

  lemma ManyWrites(p: Packet)
    requires MessageOk(p.message) && (p.message.DeleteMsg? ==> BUFFER_SIZE < HEADER)
    ensures |WritesOf(p)| > 1
  {
    HeaderParts(p, "");
    hide HeaderBytes, MessageOk, RecordBytes;
  }

  /** From the start, with any number of backups: a file operation of one thread and the next login of the same device
      cross on the first backup's socket, whichever of them is there first, and the backup receives something that is
      neither. Only a delete that is written at once is not crossed. */
  lemma CorruptionReached(ids: seq<int>, refusalReleases: bool, c1: Connection, c2: Connection, c3: Connection, f: Frame,
                          fileFirst: bool)
    returns (es: seq<WireEvent>)
    requires Pair(c1, c2) && ConnectionOk(c3) && c3.user == c1.user && c3.device == c1.device && ids != []
    requires FrameOk(f) && EntryOk(f.name) && |StoredPath(c1.user, f.name)| < INFO
    requires fileFirst && f.command == DELETE ==> BUFFER_SIZE < HEADER
    ensures AllLegalW(StartW(ids, refusalReleases), es) && Corrupted(RunW(StartW(ids, refusalReleases), es), 0)
  {
    var w0 := StartW(ids, refusalReleases);
    StartInv(ids, refusalReleases);
    StartStream(ids, refusalReleases, 0);
    var both := BothSending(ids, refusalReleases, c1, c2, c3, f);
    var m := MessageOf(Session(c1.user, c1.device, 0), f);
    assert m.DeleteMsg? ==> f.command == DELETE;
    hide StartW, Start, ClusterInv, WiredInv, StreamInv, RunW, AllLegalW, Uncrossed, Run, MessageOf, Pair, FrameOk, ConnectionOk,
      StoredPath, Possible, Corrupted, AboutToCross, WrittenPart, Begun;
    assert w0.s == Start(ids, refusalReleases) && w0.writing == map[] by { StartsEmpty(ids, refusalReleases); }
    var lifted := Lift(w0, both);
    var w1 := RunW(w0, lifted);
    RunKeepsStream(w0, lifted, 0);
    AtSlotIsReady(w1, 0);
    AtSlotIsReady(w1, 2);
    var a, b := if fileFirst then 0 else 2, if fileFirst then 2 else 0;
    var first := FirstWrite(w1, a, b, 0);
    var breaks := CrossingBreaks(RunW(w1, first), a, b, 0);
    RunConcatW(w1, first, breaks);
    RunConcatW(w0, lifted, first + breaks);
    es := lifted + (first + breaks);
  }

  lemma StartsEmpty(ids: seq<int>, refusalReleases: bool)
    ensures StartW(ids, refusalReleases).s == Start(ids, refusalReleases) && StartW(ids, refusalReleases).writing == map[]
  {}
}
