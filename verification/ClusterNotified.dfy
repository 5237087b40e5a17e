/** Which connections of a device the table has, and whom a notification reaches, in terms of what the clients did. */
module ClusterNotified {
  import opened SessionTable
  import opened SessionMap
  import opened Fanout
  import opened Wire
  import opened Disk
  import opened Cluster
  import opened ClusterLocks
  import opened ClusterTables
  import opened ClusterFiles
  import opened ClusterWires
  import opened ClusterTheorems
  import opened ClusterSockets
  import opened ClusterHistory

  /** The event lets the thread's connection in: it goes on to tell the backups. */
  ghost predicate LetsIn(s: State, e: Event) {
    && e.Go? && s.alive && e.tid in s.threads && s.threads[e.tid].LoginWait?
    && e.tid in Step(s, e).threads && Step(s, e).threads[e.tid].Broadcast?
  }

  ghost predicate LetsOut(s: State, e: Event) {
    && e.Go? && s.alive && e.tid in s.threads && s.threads[e.tid].ExitWait?
    && e.tid in Step(s, e).threads && Step(s, e).threads[e.tid].Broadcast?
  }

  /** A connection of this kind of the device, on descriptor n, is accepted at k. */
  ghost predicate AcceptedAt(s0: State, es: seq<Event>, user: string, device: int, kind: int, n: int, k: nat) {
    && k < |es| && LetsIn(Run(s0, es[..k]), es[k])
    && exists c :: Asks(es[..k], es[k].tid, c, n) && c.user == user && c.device == device && c.socketType == kind
  }

  /** The device exits at k. */
  ghost predicate ExitedAt(s0: State, es: seq<Event>, user: string, device: int, k: nat) {
    && k < |es| && LetsOut(Run(s0, es[..k]), es[k])
    && exists c, n :: Asks(es[..k], es[k].tid, c, n) && c.user == user && c.device == device
  }

  /** The device exits, or gets another connection of this kind, at j. */
  ghost predicate EndsAt(s0: State, es: seq<Event>, user: string, device: int, kind: int, j: nat) {
    ExitedAt(s0, es, user, device, j) || AcceptedSome(s0, es, user, device, kind, j)
  }

  ghost predicate AcceptedSome(s0: State, es: seq<Event>, user: string, device: int, kind: int, j: nat) {
    exists n :: AcceptedAt(s0, es, user, device, kind, n, j)
  }

  ghost predicate SinceThen(s0: State, es: seq<Event>, user: string, device: int, kind: int, k: nat) {
    forall j: nat :: k < j < |es| ==> !EndsAt(s0, es, user, device, kind, j)
  }

  /** n is the descriptor of the latest accepted connection of this kind of the device, which has not exited since. */
  ghost predicate Latest(s0: State, es: seq<Event>, user: string, device: int, kind: int, n: int) {
    exists k: nat :: AcceptedAt(s0, es, user, device, kind, n, k) && SinceThen(s0, es, user, device, kind, k)
  }

  // ---------- one event more ----------

  lemma AcceptedBefore(s0: State, es: seq<Event>, user: string, device: int, kind: int, n: int, k: nat)
    requires k + 1 < |es|
    ensures AcceptedAt(s0, es, user, device, kind, n, k) <==> AcceptedAt(s0, es[..|es| - 1], user, device, kind, n, k)
    ensures ExitedAt(s0, es, user, device, k) <==> ExitedAt(s0, es[..|es| - 1], user, device, k)
  {
    hide Run, LetsIn, LetsOut, Asks;
    assert es[..|es| - 1][..k] == es[..k] && es[..|es| - 1][k] == es[k];
  }

  lemma EndsBefore(s0: State, es: seq<Event>, user: string, device: int, kind: int, j: nat)
    requires j + 1 < |es|
    ensures EndsAt(s0, es, user, device, kind, j) <==> EndsAt(s0, es[..|es| - 1], user, device, kind, j)
  {
    hide AcceptedAt, ExitedAt;
    var init := es[..|es| - 1];
    AcceptedBefore(s0, es, user, device, kind, 0, j);
    forall n ensures AcceptedAt(s0, es, user, device, kind, n, j) <==> AcceptedAt(s0, init, user, device, kind, n, j) {
      AcceptedBefore(s0, es, user, device, kind, n, j);
    }
  }

  lemma SinceBefore(s0: State, es: seq<Event>, user: string, device: int, kind: int, k: nat)
    requires k + 1 < |es|
    ensures
      SinceThen(s0, es, user, device, kind, k) <==>
      SinceThen(s0, es[..|es| - 1], user, device, kind, k) && !EndsAt(s0, es, user, device, kind, |es| - 1)
  {
    hide EndsAt;
    var init, last: nat := es[..|es| - 1], |es| - 1;
    forall j: nat | j < last ensures EndsAt(s0, es, user, device, kind, j) <==> EndsAt(s0, init, user, device, kind, j) {
      EndsBefore(s0, es, user, device, kind, j);
    }
    if SinceThen(s0, init, user, device, kind, k) && !EndsAt(s0, es, user, device, kind, last) {
      forall j: nat | k < j < |es| ensures !EndsAt(s0, es, user, device, kind, j) {
        if j < last { assert !EndsAt(s0, init, user, device, kind, j); }
      }
    }
    if SinceThen(s0, es, user, device, kind, k) {
      assert !EndsAt(s0, es, user, device, kind, last);
      forall j: nat | k < j < last ensures !EndsAt(s0, init, user, device, kind, j) {
        assert !EndsAt(s0, es, user, device, kind, j);
      }
    }
  }

  lemma LatestNext(s0: State, es: seq<Event>, user: string, device: int, kind: int, n: int)
    requires es != []
    ensures
      var last := |es| - 1;
      Latest(s0, es, user, device, kind, n) <==>
      || AcceptedAt(s0, es, user, device, kind, n, last)
      || (Latest(s0, es[..last], user, device, kind, n) && !EndsAt(s0, es, user, device, kind, last))
  {
    hide AcceptedAt, EndsAt;
    var last: nat := |es| - 1;
    var init := es[..last];
    assert SinceThen(s0, es, user, device, kind, last);
    hide SinceThen;
    if k: nat :| AcceptedAt(s0, init, user, device, kind, n, k) && SinceThen(s0, init, user, device, kind, k) {
      AcceptedIsInside(s0, init, user, device, kind, n, k);
      AcceptedBefore(s0, es, user, device, kind, n, k);
      SinceBefore(s0, es, user, device, kind, k);
    }
    if k: nat :| AcceptedAt(s0, es, user, device, kind, n, k) && SinceThen(s0, es, user, device, kind, k) {
      AcceptedIsInside(s0, es, user, device, kind, n, k);
      if k < last {
        AcceptedBefore(s0, es, user, device, kind, n, k);
        SinceBefore(s0, es, user, device, kind, k);
      }
    }
  }

  lemma AcceptedIsInside(s0: State, es: seq<Event>, user: string, device: int, kind: int, n: int, k: nat)
    requires AcceptedAt(s0, es, user, device, kind, n, k)
    ensures k < |es|
  {
    hide Asks, LetsIn, Run;
  }

  // ---------- the table ----------

  /** The device is in the table with this descriptor as its first, second or third. */
  ghost predicate Plugged(m: Sessions, user: string, device: int, kind: int, n: int) {
    user in m && device in m[user]
    && n == (var at := m[user][device]; if kind == 1 then at.socket1 else if kind == 2 then at.socket2 else at.socket3)
  }

  lemma PluggedByLogin(m: Sessions, c: Connection, socket: int, user: string, device: int, kind: int, n: int)
    requires n != -1 && 1 <= kind <= 3
    ensures
      Plugged(MapLogin(m, c, socket), user, device, kind, n) <==>
      if user == c.user && device == c.device && c.socketType == kind then n == socket else Plugged(m, user, device, kind, n)
  {}

  lemma PluggedByExit(m: Sessions, user': string, device': int, user: string, device: int, kind: int, n: int)
    ensures
      Plugged(MapExit(m, user', device'), user, device, kind, n) <==>
      Plugged(m, user, device, kind, n) && !(user == user' && device == device')
  {
    if user in m && user == user' && device in m[user] && device != device' {
      assert device in m[user] - {device'};
    }
  }

  /** A login that is let in, an exit, and any other event, on the table as a map. */
  lemma TableMoves(s: State, e: Event)
    requires ClusterInv(s)
    ensures LetsIn(s, e) ==> Abs(Step(s, e).table) == MapLogin(Abs(s.table), s.threads[e.tid].conn, s.threads[e.tid].socket)
    ensures
      LetsOut(s, e) ==>
        Abs(Step(s, e).table) == MapExit(Abs(s.table), s.threads[e.tid].sess.user, s.threads[e.tid].sess.device)
    ensures !LetsIn(s, e) && !LetsOut(s, e) ==> Step(s, e).table == s.table
  {
    hide *;
    if e.Go? && s.alive && e.tid in s.threads && s.threads[e.tid].LoginWait? {
      LoginMovesTable(s, e.tid);
    } else if e.Go? && s.alive && e.tid in s.threads && s.threads[e.tid].ExitWait? {
      ExitMovesTable(s, e.tid);
    } else {
      OthersKeepTable(s, e);
    }
  }

  lemma InvParts(s: State)
    requires ClusterInv(s)
    ensures ControlInv(s) && TableInv(s.table)
  {}

  lemma LoginMovesTable(s: State, tid: nat)
    requires ClusterInv(s) && s.alive && tid in s.threads && s.threads[tid].LoginWait?
    ensures
      var c, socket := s.threads[tid].conn, s.threads[tid].socket;
      && !LetsOut(s, Go(tid))
      && if LetsIn(s, Go(tid)) then Abs(Step(s, Go(tid)).table) == MapLogin(Abs(s.table), c, socket)
         else Step(s, Go(tid)).table == s.table
  {
    hide ClusterInv, Login, Seated, CanLogin, Abs, MapLogin, TableInv, ControlInv;
    InvParts(s);
    var c, socket := s.threads[tid].conn, s.threads[tid].socket;
    ThreadControl(s, tid);
    LoginDecision(s.table, c, socket);
    if CanLogin(s.table, c.user, c.device) { LoginRefines(s.table, c, socket); }
  }

  lemma ExitMovesTable(s: State, tid: nat)
    requires ClusterInv(s) && s.alive && tid in s.threads && s.threads[tid].ExitWait?
    ensures
      var sess := s.threads[tid].sess;
      && !LetsIn(s, Go(tid))
      && if LetsOut(s, Go(tid)) then Abs(Step(s, Go(tid)).table) == MapExit(Abs(s.table), sess.user, sess.device)
         else Step(s, Go(tid)).table == s.table
  {
    hide ClusterInv, Exit, Vacated, Present, Abs, MapExit, TableInv, ControlInv;
    InvParts(s);
    var sess := s.threads[tid].sess;
    ThreadControl(s, tid);
    ExitEffect(s.table, sess.user, sess.device);
    if Present(s.table, sess.user, sess.device) { ExitRefines(s.table, sess.user, sess.device); }
  }

  lemma OthersKeepTable(s: State, e: Event)
    requires !(e.Go? && s.alive && e.tid in s.threads && (s.threads[e.tid].LoginWait? || s.threads[e.tid].ExitWait?))
    ensures !LetsIn(s, e) && !LetsOut(s, e) && Step(s, e).table == s.table
  {
    if e.Go? && s.alive && e.tid in s.threads { OtherThreads(s, e.tid); }
    hide StepThread, Apply;
  }

  // ---------- runs ----------

  /** The descriptors in the table are what the clients' connections and exits say. */
  ghost predicate PluggedInv(s0: State, es: seq<Event>) {
    forall user, device, kind, n :: n != -1 && 1 <= kind <= 3 ==>
      (Plugged(Abs(Run(s0, es).table), user, device, kind, n) <==> Latest(s0, es, user, device, kind, n))
  }

  /** What the last event is, in terms of the connection that its thread serves. */
  lemma LastLetsIn(s0: State, es: seq<Event>, c: Connection, m: int, user: string, device: int, kind: int, n: int)
    requires es != [] && LetsIn(Run(s0, es[..|es| - 1]), es[|es| - 1]) && Asks(es[..|es| - 1], es[|es| - 1].tid, c, m)
    ensures
      AcceptedAt(s0, es, user, device, kind, n, |es| - 1) <==>
      user == c.user && device == c.device && c.socketType == kind && n == m
    ensures !ExitedAt(s0, es, user, device, |es| - 1)
  {
    var init, tid := es[..|es| - 1], es[|es| - 1].tid;
    NotBoth(Run(s0, init), es[|es| - 1]);
    hide Run, LetsIn, LetsOut, Asks;
    if c', n' :| Asks(init, tid, c', n') { AsksOnce(init, tid, c, m, c', n'); }
    if AcceptedAt(s0, es, user, device, kind, n, |es| - 1) {
      var c' :| Asks(init, tid, c', n) && c'.user == user && c'.device == device && c'.socketType == kind;
      AsksOnce(init, tid, c, m, c', n);
    }
  }

  lemma LastLetsOut(s0: State, es: seq<Event>, c: Connection, m: int, user: string, device: int, kind: int)
    requires es != [] && LetsOut(Run(s0, es[..|es| - 1]), es[|es| - 1]) && Asks(es[..|es| - 1], es[|es| - 1].tid, c, m)
    ensures ExitedAt(s0, es, user, device, |es| - 1) <==> user == c.user && device == c.device
    ensures !AcceptedSome(s0, es, user, device, kind, |es| - 1)
  {
    var init, tid := es[..|es| - 1], es[|es| - 1].tid;
    NotBoth(Run(s0, init), es[|es| - 1]);
    hide Run, LetsIn, LetsOut, Asks;
    if ExitedAt(s0, es, user, device, |es| - 1) {
      var c', n' :| Asks(init, tid, c', n') && c'.user == user && c'.device == device;
      AsksOnce(init, tid, c, m, c', n');
    }
  }

  lemma NotBoth(s: State, e: Event)
    ensures !(LetsIn(s, e) && LetsOut(s, e))
  {
    hide Step;
  }

  lemma LastIsOther(s0: State, es: seq<Event>, user: string, device: int, kind: int)
    requires es != [] && !LetsIn(Run(s0, es[..|es| - 1]), es[|es| - 1]) && !LetsOut(Run(s0, es[..|es| - 1]), es[|es| - 1])
    ensures !EndsAt(s0, es, user, device, kind, |es| - 1)
    ensures !AcceptedSome(s0, es, user, device, kind, |es| - 1)
  {
    hide Run, LetsIn, LetsOut, Asks;
  }

  lemma PluggedNext(s0: State, es: seq<Event>, user: string, device: int, kind: int, n: int)
    requires es != [] && n != -1 && 1 <= kind <= 3 && ClusterInv(Run(s0, es[..|es| - 1])) && HistoryInv(s0, es[..|es| - 1])
    requires
      Plugged(Abs(Run(s0, es[..|es| - 1]).table), user, device, kind, n) <==>
      Latest(s0, es[..|es| - 1], user, device, kind, n)
    ensures Plugged(Abs(Run(s0, es).table), user, device, kind, n) <==> Latest(s0, es, user, device, kind, n)
  {
    hide *;
    var init, e := es[..|es| - 1], es[|es| - 1];
    var before := Run(s0, init);
    RunLast(s0, es);
    TableMoves(before, e);
    LatestNext(s0, es, user, device, kind, n);
    if LetsIn(before, e) {
      var c, m := ServedIn(s0, init, before, e);
      LastLetsIn(s0, es, c, m, user, device, kind, n);
      EndsThen(s0, es, c, m, user, device, kind);
      PluggedByLogin(Abs(before.table), c, m, user, device, kind, n);
    } else if LetsOut(before, e) {
      var c, m := ServedOut(s0, init, before, e);
      LastLetsOut(s0, es, c, m, user, device, kind);
      NotAccepted(s0, es, user, device, kind, n);
      EndsAtExit(s0, es, user, device, kind);
      PluggedByExit(Abs(before.table), c.user, c.device, user, device, kind, n);
    } else {
      LastIsOther(s0, es, user, device, kind);
      NotAccepted(s0, es, user, device, kind, n);
    }
  }

  lemma NotAccepted(s0: State, es: seq<Event>, user: string, device: int, kind: int, n: int)
    requires es != [] && !AcceptedSome(s0, es, user, device, kind, |es| - 1)
    ensures !AcceptedAt(s0, es, user, device, kind, n, |es| - 1)
  {
    hide AcceptedAt;
  }

  lemma EndsThen(s0: State, es: seq<Event>, c: Connection, m: int, user: string, device: int, kind: int)
    requires es != [] && LetsIn(Run(s0, es[..|es| - 1]), es[|es| - 1]) && Asks(es[..|es| - 1], es[|es| - 1].tid, c, m)
    ensures EndsAt(s0, es, user, device, kind, |es| - 1) <==> user == c.user && device == c.device && c.socketType == kind
  {
    hide Run, LetsIn, LetsOut, Asks, AcceptedAt, ExitedAt;
    LastLetsIn(s0, es, c, m, user, device, kind, m);
    var last: nat := |es| - 1;
    if n :| AcceptedAt(s0, es, user, device, kind, n, last) { LastLetsIn(s0, es, c, m, user, device, kind, n); }
  }

  lemma EndsAtExit(s0: State, es: seq<Event>, user: string, device: int, kind: int)
    requires es != [] && !AcceptedSome(s0, es, user, device, kind, |es| - 1)
    ensures EndsAt(s0, es, user, device, kind, |es| - 1) <==> ExitedAt(s0, es, user, device, |es| - 1)
  {
    hide AcceptedAt, ExitedAt;
  }

  lemma ServedIn(s0: State, es: seq<Event>, s: State, e: Event) returns (c: Connection, n: int)
    requires HistoryInv(s0, es) && s == Run(s0, es) && LetsIn(s, e)
    ensures e.Go? && Asks(es, e.tid, c, n) && e.tid in s.threads && s.threads[e.tid] == LoginWait(c, n)
  {
    HistoryOf(s0, es, e.tid);
    hide Run, Asks, Ordered, HistoryInv;
    c, n :| Asks(es, e.tid, c, n) && Serves(s.threads[e.tid], c, n);
  }

  lemma ServedOut(s0: State, es: seq<Event>, s: State, e: Event) returns (c: Connection, n: int)
    requires HistoryInv(s0, es) && s == Run(s0, es) && LetsOut(s, e)
    ensures
      && e.Go? && Asks(es, e.tid, c, n) && e.tid in s.threads && s.threads[e.tid].ExitWait?
      && s.threads[e.tid].sess.user == c.user && s.threads[e.tid].sess.device == c.device
  {
    HistoryOf(s0, es, e.tid);
    hide Run, Asks, Ordered, HistoryInv;
    c, n :| Asks(es, e.tid, c, n) && Serves(s.threads[e.tid], c, n);
  }

  lemma {:induction false} RunPlugged(s0: State, es: seq<Event>)
    requires ClusterInv(s0) && s0.threads == map[] && AllLegal(s0, es) && s0.table == EmptyTable()
    ensures PluggedInv(s0, es)
  {
    hide ClusterInv, Legal, Plugged, Latest;
    if es == [] {
      forall user, device, kind, n
        ensures Plugged(Abs(s0.table), user, device, kind, n) <==> Latest(s0, es, user, device, kind, n)
      {
        NobodyAtStart(s0, user, device, kind, n);
      }
      assert Run(s0, es) == s0;
    } else {
      var init := es[..|es| - 1];
      RunPlugged(s0, init);
      RunInv(s0, init);
      RunHistory(s0, init);
      hide Run, HistoryInv;
      forall user, device, kind, n | n != -1 && 1 <= kind <= 3
        ensures Plugged(Abs(Run(s0, es).table), user, device, kind, n) <==> Latest(s0, es, user, device, kind, n)
      {
        PluggedNext(s0, es, user, device, kind, n);
      }
    }
  }

  lemma NobodyAtStart(s0: State, user: string, device: int, kind: int, n: int)
    requires s0.table == EmptyTable()
    ensures !Plugged(Abs(s0.table), user, device, kind, n) && !Latest(s0, [], user, device, kind, n)
  {
    EmptyTableInv();
    AbsHas(s0.table, user);
    hide Abs, AcceptedAt, Run;
    forall k: nat ensures !AcceptedAt(s0, [], user, device, kind, n, k) {
      if AcceptedAt(s0, [], user, device, kind, n, k) { AcceptedIsInside(s0, [], user, device, kind, n, k); }
    }
  }

  /** After every run the table has a descriptor as the first, second or third one of a device if and only if it is that of
      the device's latest accepted connection of that kind, and the device has not exited since. */
  lemma SocketsAreLatest(ids: seq<int>, refusalReleases: bool, es: seq<Event>, user: string, device: int, kind: int, n: int)
    requires AllLegal(Start(ids, refusalReleases), es) && n != -1 && 1 <= kind <= 3
    ensures
      Plugged(Abs(Reached(ids, refusalReleases, es).table), user, device, kind, n) <==>
      Latest(Start(ids, refusalReleases), es, user, device, kind, n)
  {
    hide *;
    StartIs(ids, refusalReleases);
    StartInv(ids, refusalReleases);
    ReachedIs(ids, refusalReleases, es);
    RunPlugged(Start(ids, refusalReleases), es);
    PluggedIn(Start(ids, refusalReleases), es, user, device, kind, n);
  }

  lemma PluggedIn(s0: State, es: seq<Event>, user: string, device: int, kind: int, n: int)
    requires PluggedInv(s0, es) && n != -1 && 1 <= kind <= 3
    ensures Plugged(Abs(Run(s0, es).table), user, device, kind, n) <==> Latest(s0, es, user, device, kind, n)
  {
    hide Run, Plugged, Latest, Abs;
  }

  // ---------- whom a notification reaches ----------

  /** Another device of the user has its latest third connection on descriptor n. */
  ghost predicate Listens(s0: State, es: seq<Event>, user: string, device: int, n: int) {
    exists other :: other != device && Latest(s0, es, user, other, 3, n)
  }

  lemma PluggedInRow(t: Table, user: string, device: int, n: int)
    requires TableInv(t) && user != "" && UserAt(t, user) < |t| && device != -1
    ensures
      Plugged(Abs(t), user, device, 3, n) <==>
      exists d :: d in t[UserAt(t, user)].devices && d.id == device && d.socket3 == n
  {
    var ds := t[UserAt(t, user)].devices;
    AbsHas(t, user);
    DeviceMapHas(ds, device);
    assert RowInv(ds);
    hide Abs, DeviceMap, TableInv;
    if d :| d in ds && d.id == device && d.socket3 == n {
      var i :| 0 <= i < |ds| && ds[i] == d;
      DeviceAtUnique(ds, device, i);
    }
    if Plugged(Abs(t), user, device, 3, n) { assert ds[DeviceAt(ds, device)] in ds; }
  }

  lemma TargetsListen(s0: State, es: seq<Event>, t: Table, user: string, device: int, n: int)
    requires TableInv(t) && user != "" && UserAt(t, user) < |t| && n != -1
    requires forall other :: Plugged(Abs(t), user, other, 3, n) <==> Latest(s0, es, user, other, 3, n)
    ensures IsTarget(t[UserAt(t, user)].devices, device, n) <==> Listens(s0, es, user, device, n)
  {
    hide Abs, TableInv, Latest, Plugged, RowInv;
    var ds := t[UserAt(t, user)].devices;
    if d :| d in ds && d.id != -1 && d.id != device && d.socket3 == n {
      PluggedInRow(t, user, d.id, n);
      assert Latest(s0, es, user, d.id, 3, n);
    }
    if other :| other != device && Latest(s0, es, user, other, 3, n) {
      assert Plugged(Abs(t), user, other, 3, n);
      PluggedIsReal(t, user, other, n);
      PluggedInRow(t, user, other, n);
    }
  }

  lemma PluggedIsReal(t: Table, user: string, device: int, n: int)
    requires Plugged(Abs(t), user, device, 3, n)
    ensures device != -1
  {
    AbsHas(t, user);
    DeviceMapHas(t[UserAt(t, user)].devices, device);
    hide Abs, DeviceMap;
  }

  /** Committing a notification, at any moment of any run over fresh descriptors, adds the frame of the thread's last
      command once to what is sent on descriptor n, if n is the latest accepted third connection of another device of
      the user that has not exited since, and otherwise nothing. */
  lemma NotifiedExactly(ids: seq<int>, refusalReleases: bool, es: seq<Event>, tid: nat, c: Connection, m: int, f: Frame, n: int)
    requires AllLegal(Start(ids, refusalReleases), es) && AllFresh(Start(ids, refusalReleases), es) && n != -1
    requires Asks(es, tid, c, m) && Ordered(Start(ids, refusalReleases), es, tid, f)
    requires
      var s := Reached(ids, refusalReleases, es);
      s.alive && s.userLock.None? && tid in s.threads && s.threads[tid].NotifyWait? && Step(s, Go(tid)).alive
    ensures
      var s0, s := Start(ids, refusalReleases), Reached(ids, refusalReleases, es);
      FramesOn(Step(s, Go(tid)), n) == FramesOn(s, n) + if Listens(s0, es, c.user, c.device, n) then [f] else []
  {
    hide *;
    StartIs(ids, refusalReleases);
    StartInv(ids, refusalReleases);
    ReachedIs(ids, refusalReleases, es);
    ReachedInv(ids, refusalReleases, es);
    RunPlugged(Start(ids, refusalReleases), es);
    ThreadsServe(ids, refusalReleases, es, tid, c, m);
    var s0, s := Start(ids, refusalReleases), Reached(ids, refusalReleases, es);
    NotifierIs(s, tid, c, m, f);
    StillThere(s, tid);
    NotifiedOnce(ids, refusalReleases, es, tid, n);
    PluggedOf(s0, es, s, c.user, n);
    TargetsListen(s0, es, s.table, c.user, c.device, n);
  }

  lemma StartIs(ids: seq<int>, refusalReleases: bool)
    ensures Start(ids, refusalReleases).threads == map[] && Start(ids, refusalReleases).table == EmptyTable()
  {}

  lemma NotifierIs(s: State, tid: nat, c: Connection, m: int, f: Frame)
    requires ClusterInv(s) && tid in s.threads && s.threads[tid].NotifyWait? && Serves(s.threads[tid], c, m)
    requires Works(s.threads[tid]) ==> Carries(s.threads[tid], c.user, f)
    ensures s.threads[tid] == NotifyWait(Session(c.user, c.device, m), f) && c.user != "" && TableInv(s.table)
  {
    InvParts(s);
    ThreadControl(s, tid);
    hide ClusterInv, ControlInv, TableInv;
  }

  lemma StillThere(s: State, tid: nat)
    requires s.alive && s.userLock.None? && tid in s.threads && s.threads[tid].NotifyWait? && Step(s, Go(tid)).alive
    ensures UserAt(s.table, s.threads[tid].sess.user) < |s.table|
  {
    hide Targets, Todo, AddFrames, UserAt;
  }

  lemma PluggedOf(s0: State, es: seq<Event>, s: State, user: string, n: int)
    requires PluggedInv(s0, es) && s == Run(s0, es) && n != -1
    ensures forall other :: Plugged(Abs(s.table), user, other, 3, n) <==> Latest(s0, es, user, other, 3, n)
  {
    hide Run, Plugged, Latest, Abs;
  }
}
