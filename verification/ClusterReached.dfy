/** Runs from the start into the states where the guarantees end, for any number of backups. */
module ClusterReached {
  import opened Limits
  import opened SessionTable
  import opened SessionMap
  import opened SessionRuns
  import opened Wire
  import opened Disk
  import opened Cluster
  import opened ClusterLocks
  import opened ClusterLogs
  import opened ClusterFiles
  import opened ClusterTheorems
  import opened ClusterRuns
  import opened ClusterFailures

  // ---------- two threads of one device ----------

  /** The connections of one device's console and of its inotify thread. */
  ghost predicate Pair(c1: Connection, c2: Connection) {
    && ConnectionOk(c1) && ConnectionOk(c2) && c1.user == c2.user && c1.device == c2.device
    && c1.socketType == T1 && c2.socketType == T2
  }

  lemma EmptyAdmits(user: string, device: int)
    requires user != "" && device != -1
    ensures CanLogin(EmptyTable(), user, device) && Abs(EmptyTable()) == map[]
  {
    EmptyTableInv();
    var t := EmptyTable();
    assert t[0].name == "";
    UserAtUnique(t, "", 0);
    SeatHasRoom(t, user, device);
    forall name ensures name !in Abs(t) { AbsHas(t, name); }
  }

  /** The map has this device of this user and nothing else. */
  ghost predicate JustOne(m: Sessions, user: string, device: int) {
    user in m && m.Keys == {user} && m[user].Keys == {device}
  }

  lemma FirstLogin(m: Sessions, c: Connection, socket: int)
    requires m == map[] || JustOne(m, c.user, c.device)
    ensures JustOne(MapLogin(m, c, socket), c.user, c.device)
  {}

  lemma LastExit(m: Sessions, user: string, device: int)
    requires JustOne(m, user, device)
    ensures MapExit(m, user, device) == map[]
  {
    assert m[user] - {device} == map[];
  }

  /** Both of a device's threads are idle, and nobody else is there. */
  lemma PairReached(ids: seq<int>, refusalReleases: bool, c1: Connection, c2: Connection, n1: int, n2: int)
    returns (es: seq<Event>)
    requires Pair(c1, c2)
    ensures Possible(Start(ids, refusalReleases), es)
    ensures
      var s := Reached(ids, refusalReleases, es);
      && Calm(s) && ClusterInv(s) && |s.backups| == |ids|
      && s.threads == map[0 := Idle(Session(c1.user, c1.device, n1)), 1 := Idle(Session(c1.user, c1.device, n2))]
      && JustOne(Abs(s.table), c1.user, c1.device)
      && Present(s.table, c1.user, c1.device) && UserAt(s.table, c1.user) < |s.table|
  {
    EmptyAdmits(c1.user, c1.device);
    EmptyTableInv();
    var s0 := Start(ids, refusalReleases);
    hide TableInv, CanLogin, Seated, Abs, MapLogin, JustOne, EmptyTable, Present;
    var first := LoginRuns(s0, 0, c1, n1);
    var s1 := Run(s0, first);
    LoginStays(s0.table, c1, n1);
    var second := LoginRuns(s1, 1, c2, n2);
    LoginStays(s1.table, c2, n2);
    hide Run, Start, ConnectionOk;
    PossibleConcat(s0, first, second);
    es := first + second;
    ReachedInv(ids, refusalReleases, es);
    PresentFinds(Reached(ids, refusalReleases, es).table, c1.user, c1.device);
  }

  lemma PresentFinds(t: Table, user: string, device: int)
    requires Present(t, user, device)
    ensures UserAt(t, user) < |t|
  {}

  lemma LoginStays(t: Table, c: Connection, socket: int)
    requires TableInv(t) && ConnectionOk(c) && CanLogin(t, c.user, c.device)
    requires Abs(t) == map[] || JustOne(Abs(t), c.user, c.device)
    ensures
      var t' := Seated(t, c, socket);
      && TableInv(t') && Present(t', c.user, c.device) && CanLogin(t', c.user, c.device)
      && JustOne(Abs(t'), c.user, c.device)
  {
    SeatedKeepsInv(t, c, socket);
    LoginRefines(t, c, socket);
    FirstLogin(Abs(t), c, socket);
    hide TableInv, Abs, Seated, JustOne;
  }

  // ---------- a death ----------

  /** A device's inotify thread has written an upload when the console's exit removes the user: looking up the user
      to notify, the thread dereferences null, and the primary dies without having been killed. */
  lemma DeathReached(ids: seq<int>, refusalReleases: bool, c1: Connection, c2: Connection, n1: int, n2: int, f: Frame)
    returns (es: seq<Event>)
    requires Pair(c1, c2) && FrameOk(f) && EntryOk(f.name) && |StoredPath(c1.user, f.name)| < INFO
    ensures Possible(Start(ids, refusalReleases), es)
    ensures !Reached(ids, refusalReleases, es).alive
  {
    var s0 := Start(ids, refusalReleases);
    var sess1, sess2 := Session(c1.user, c1.device, n1), Session(c1.user, c1.device, n2);
    var pair := PairReached(ids, refusalReleases, c1, c2, n1, n2);
    var s1 := Run(s0, pair);
    hide Start, Abs, JustOne, Present, CanLogin, FrameOk, ConnectionOk, StoredPath;
    var write := WriteRuns(s1, 1, sess2, f);
    var s2 := Run(s1, write);
    assert TableInv(s1.table);
    var exit := ExitRuns(s2, 0, sess1);
    var s3 := Run(s2, exit);
    LeavesNobody(s1.table, c1.user, c1.device);
    assert s3.threads[1] == NotifyWait(sess2, f);
    DiesAt(s3, 1, sess2, f);
    hide Run, Step, ClusterInv, Vacated, TableInv;
    PossibleOne(s3, Go(1));
    PossibleConcat(s2, exit, [Go(1)]);
    PossibleConcat(s1, write, exit + [Go(1)]);
    PossibleConcat(s0, pair, write + (exit + [Go(1)]));
    es := pair + (write + (exit + [Go(1)]));
  }

  lemma DiesAt(s: State, tid: nat, sess: Session, f: Frame)
    requires Calm(s) && tid in s.threads && s.threads[tid] == NotifyWait(sess, f) && UserAt(s.table, sess.user) == |s.table|
    ensures !Step(s, Go(tid)).alive
  {}

  lemma LeavesNobody(t: Table, user: string, device: int)
    requires TableInv(t) && user != "" && device != -1 && Present(t, user, device) && JustOne(Abs(t), user, device)
    ensures UserAt(Vacated(t, user, device), user) == |Vacated(t, user, device)|
  {
    ExitRefines(t, user, device);
    LastExit(Abs(t), user, device);
    AbsHas(Vacated(t, user, device), user);
  }

  /** An idle thread takes a command and writes its file. */
  lemma WriteRuns(s: State, tid: nat, sess: Session, f: Frame) returns (es: seq<Event>)
    requires Calm(s) && tid in s.threads && s.threads[tid] == Idle(sess)
    requires FrameOk(f) && EntryOk(f.name) && PathFits(sess, f)
    ensures Possible(s, es)
    ensures
      var s' := Run(s, es);
      && Calm(s') && s'.table == s.table && s'.backups == s.backups
      && s'.threads == s.threads[tid := NotifyWait(sess, f)]
  {
    var start := StartsRun(s, tid, sess, f);
    var s1 := Run(s, start);
    assert Step(s1, Go(tid)) == StepFileWrite(s1, tid, sess, f);
    hide Run, Step, MessageOf, ApplyFile, FrameOk, EntryOk, PathFits;
    PossibleOne(s1, Go(tid));
    PossibleConcat(s, start, [Go(tid)]);
    es := start + [Go(tid)];
  }

  lemma StartsRun(s: State, tid: nat, sess: Session, f: Frame) returns (es: seq<Event>)
    requires s.alive && tid in s.threads && s.threads[tid] == Idle(sess)
    requires FrameOk(f) && EntryOk(f.name) && PathFits(sess, f)
    ensures Possible(s, es) && Run(s, es) == s.(threads := s.threads[tid := FileWrite(sess, f)])
  {
    PossibleOne(s, Command(tid, f));
    es := [Command(tid, f)];
  }

  // ---------- primary and backups apart ----------

  /** The two threads of one device are about to write one file. */
  lemma OverlapReached(ids: seq<int>, refusalReleases: bool, c1: Connection, c2: Connection, n1: int, n2: int,
                       f1: Frame, f2: Frame)
    returns (es: seq<Event>)
    requires Pair(c1, c2) && f1.name == f2.name && FrameOk(f1) && FrameOk(f2)
    requires EntryOk(f1.name) && |StoredPath(c1.user, f1.name)| < INFO
    ensures Possible(Start(ids, refusalReleases), es)
    ensures
      var s := Reached(ids, refusalReleases, es);
      && Calm(s) && ClusterInv(s) && |s.backups| == |ids| && UserAt(s.table, c1.user) < |s.table|
      && s.threads == map[0 := FileWrite(Session(c1.user, c1.device, n1), f1), 1 := FileWrite(Session(c1.user, c1.device, n2), f2)]
  {
    var s0 := Start(ids, refusalReleases);
    var sess1, sess2 := Session(c1.user, c1.device, n1), Session(c1.user, c1.device, n2);
    var pair := PairReached(ids, refusalReleases, c1, c2, n1, n2);
    assert PathFits(sess1, f1) && PathFits(sess2, f2);
    hide Start, Abs, JustOne, Present, FrameOk, EntryOk, ConnectionOk, StoredPath, ClusterInv, Run, UserAt, Possible, PathFits;
    var both := BothStart(Run(s0, pair), sess1, sess2, f1, f2);
    PossibleConcat(s0, pair, both);
    es := pair + both;
    PossibleIsLegal(s0, es);
    ReachedInv(ids, refusalReleases, es);
  }

  lemma BothStart(s: State, sess1: Session, sess2: Session, f1: Frame, f2: Frame) returns (es: seq<Event>)
    requires Calm(s) && FrameOk(f1) && FrameOk(f2) && EntryOk(f1.name) && EntryOk(f2.name)
    requires PathFits(sess1, f1) && PathFits(sess2, f2)
    requires s.threads == map[0 := Idle(sess1), 1 := Idle(sess2)]
    ensures Possible(s, es)
    ensures Run(s, es) == s.(threads := map[0 := FileWrite(sess1, f1), 1 := FileWrite(sess2, f2)])
  {
    hide FrameOk, EntryOk, PathFits, Run, Possible;
    var start1 := StartsRun(s, 0, sess1, f1);
    var start2 := StartsRun(Run(s, start1), 1, sess2, f2);
    PossibleConcat(s, start1, start2);
    es := start1 + start2;
    assert s.threads[0 := FileWrite(sess1, f1)][1 := FileWrite(sess2, f2)] ==
      map[0 := FileWrite(sess1, f1), 1 := FileWrite(sess2, f2)];
  }

  /** The two threads of one device upload or delete one file at the same time, and with nothing more under way the
      primary has the one's effect and every backup the other's. */
  lemma DivergenceReached(ids: seq<int>, refusalReleases: bool, c1: Connection, c2: Connection, n1: int, n2: int,
                          f1: Frame, f2: Frame)
    returns (es: seq<Event>)
    requires Pair(c1, c2) && f1.name == f2.name && FrameOk(f1) && FrameOk(f2)
    requires EntryOk(f1.name) && |StoredPath(c1.user, f1.name)| < INFO
    requires MessageEffect(Session(c1.user, c1.device, n1), f1) != MessageEffect(Session(c1.user, c1.device, n2), f2)
    ensures Possible(Start(ids, refusalReleases), es)
    ensures
      var s, path := Reached(ids, refusalReleases, es), StoredPath(c1.user, f1.name);
      && |s.backups| == |ids| && (forall tid :: tid in s.threads ==> s.threads[tid].Idle?)
      && Content(s.disk, path) == MessageEffect(Session(c1.user, c1.device, n2), f2)
      && forall i :: 0 <= i < |ids| ==>
           Content(Replay(s.backups[i].log).disk, path) == MessageEffect(Session(c1.user, c1.device, n1), f1)
  {
    var s0 := Start(ids, refusalReleases);
    var sess1, sess2 := Session(c1.user, c1.device, n1), Session(c1.user, c1.device, n2);
    var overlap := OverlapReached(ids, refusalReleases, c1, c2, n1, n2, f1, f2);
    assert MessageOf(sess1, f1).path == MessageOf(sess2, f2).path == StoredPath(c1.user, f1.name);
    hide Start, FrameOk, ConnectionOk, StoredPath, MessageEffect, Content, Replay, ClusterInv, Run, UserAt, MessageOf;
    var apart := OverlapDiverges(Run(s0, overlap), 0, 1, sess1, f1, sess2, f2);
    PossibleConcat(s0, overlap, apart);
    es := overlap + apart;
  }

  // ---------- a refusal ----------

  /** The connection of the n-th device of a user. */
  function Nth(user: string, n: nat): Connection { Connection(user, n, T3, 0) }

  /** The first n devices are logged in, and their threads are done. */
  ghost predicate Filled(s: State, user: string, n: nat) {
    && Calm(s) && TableInv(s.table)
    && (forall tid :: tid in s.threads ==> tid < n)
    && Abs(s.table).Keys == (if n == 0 then {} else {user})
    && (n > 0 ==> Abs(s.table)[user].Keys == FirstIds(n))
  }

  lemma {:induction false} DevicesFill(s: State, user: string, n: nat) returns (es: seq<Event>)
    requires Filled(s, user, 0) && UserOk(user) && n <= MAX_DEVICES && n <= INT_MAX
    ensures Possible(s, es) && Filled(Run(s, es), user, n) && Run(s, es).refusalReleases == s.refusalReleases
  {
    hide *;
    if n == 0 {
      NoEvents(s);
      es := [];
    } else {
      var init := DevicesFill(s, user, n - 1);
      var more := OneMore(Run(s, init), user, n - 1);
      PossibleConcat(s, init, more);
      es := init + more;
    }
  }

  lemma NoEvents(s: State)
    ensures Possible(s, []) && Run(s, []) == s
  {}

  lemma OneMore(s: State, user: string, n: nat) returns (es: seq<Event>)
    requires Filled(s, user, n) && UserOk(user) && n < MAX_DEVICES && n < INT_MAX
    ensures Possible(s, es) && Filled(Run(s, es), user, n + 1) && Run(s, es).refusalReleases == s.refusalReleases
  {
    FilledAdmits(s, user, n);
    NthIsOk(user, n);
    hide Filled, Run, TableInv, CanLogin, Seated, Abs, ConnectionOk, UserOk, Possible;
    es := LoginRuns(s, n, Nth(user, n), 0);
    FillsOne(s, Run(s, es), user, n);
  }

  function FirstIds(n: nat): set<int> { if n == 0 then {} else FirstIds(n - 1) + {n - 1} }

  lemma {:induction false} FirstIdsAre(n: nat)
    ensures |FirstIds(n)| == n && forall i :: i in FirstIds(n) ==> 0 <= i < n
  {
    if n > 0 { FirstIdsAre(n - 1); }
  }

  lemma NthIsOk(user: string, n: nat)
    requires UserOk(user) && n <= INT_MAX
    ensures ConnectionOk(Nth(user, n))
  {}

  lemma FilledAdmits(s: State, user: string, n: nat)
    requires Filled(s, user, n) && UserOk(user)
    ensures TableInv(s.table) && Calm(s) && n !in s.threads
    ensures CanLogin(s.table, user, n) <==> n < MAX_DEVICES
  {
    LoginAdmission(s.table, user, n);
    FirstIdsAre(n);
    var m := Abs(s.table);
    if n > 0 {
      assert user in m;
      assert |m[user]| == |m[user].Keys|;
    } else {
      assert m == map[];
    }
  }

  lemma FillsOne(s: State, s': State, user: string, n: nat)
    requires Filled(s, user, n) && UserOk(user) && CanLogin(s.table, user, n) && Calm(s')
    requires s'.table == Seated(s.table, Nth(user, n), 0)
    requires s'.threads == s.threads[n := AfterDir(Nth(user, n), 0)]
    ensures Filled(s', user, n + 1)
  {
    SeatedKeepsInv(s.table, Nth(user, n), 0);
    LoginRefines(s.table, Nth(user, n), 0);
    hide TableInv, Abs, Seated, CanLogin;
    var m, m' := Abs(s.table), Abs(s'.table);
    assert m'.Keys == {user};
    assert m'[user].Keys == (if n > 0 then m[user].Keys else {}) + {n};
  }

  /** One device more than there are slots: the login is refused, and its thread keeps the lock for ever. */
  lemma RefusalReached(ids: seq<int>, user: string) returns (es: seq<Event>)
    requires UserOk(user) && MAX_DEVICES <= INT_MAX
    ensures Possible(Start(ids, false), es)
    ensures StuckOn(Reached(ids, false, es), MAX_DEVICES)
  {
    var s0 := Start(ids, false);
    EmptyTableInv();
    EmptyAdmits(user, 0);
    var fill := DevicesFill(s0, user, MAX_DEVICES);
    var s1 := Run(s0, fill);
    FilledAdmits(s1, user, MAX_DEVICES);
    hide Start, TableInv, CanLogin, Run, Filled;
    var refused := RefusedRuns(s1, MAX_DEVICES, Nth(user, MAX_DEVICES));
    PossibleConcat(s0, fill, refused);
    es := fill + refused;
  }

  lemma RefusedRuns(s: State, tid: nat, c: Connection) returns (es: seq<Event>)
    requires Calm(s) && TableInv(s.table) && tid !in s.threads && ConnectionOk(c) && !s.refusalReleases
    requires !CanLogin(s.table, c.user, c.device)
    ensures Possible(s, es) && StuckOn(Run(s, es), tid)
  {
    hide TableInv, CanLogin, ConnectionOk, StuckOn;
    var s1 := Step(s, Connect(tid, c, 0));
    assert s1 == s.(threads := s.threads[tid := LoginWait(c, 0)]);
    PossibleOne(s, Connect(tid, c, 0));
    UserIsNamed(c);
    RefusalSticks(s1, tid, c, 0);
    assert Step(s1, Go(tid)) == StepLoginWait(s1, tid, c, 0);
    hide Step, Run, StepLoginWait;
    PossibleOne(s1, Go(tid));
    PossibleConcat(s, [Connect(tid, c, 0)], [Go(tid)]);
    es := [Connect(tid, c, 0)] + [Go(tid)];
  }

  // ---------- two messages on their way to one backup ----------

  /** An upload and the next login of the same device are both about to be sent to the first backup, each under
      its own lock. */
  lemma BothSending(ids: seq<int>, refusalReleases: bool, c1: Connection, c2: Connection, c3: Connection, f: Frame)
    returns (es: seq<Event>)
    requires Pair(c1, c2) && ConnectionOk(c3) && c3.user == c1.user && c3.device == c1.device
    requires FrameOk(f) && EntryOk(f.name) && |StoredPath(c1.user, f.name)| < INFO
    ensures Possible(Start(ids, refusalReleases), es)
    ensures
      var s, sess := Reached(ids, refusalReleases, es), Session(c1.user, c1.device, 0);
      && s.alive && ClusterInv(s) && |s.backups| == |ids| && 0 in s.threads && 2 in s.threads
      && s.threads[0] == Broadcast(MessageOf(sess, f), 0, Idle(sess))
      && s.threads[2] == Broadcast(InsertMsg(c3), 0, LoginDir(c3, 2))
  {
    hide Start, Abs, JustOne, FrameOk, ConnectionOk, StoredPath, Run, UserAt, MessageOf, Possible, ControlInv, TableInv,
      SameShape,
      Replay, CanLogin, Present, Seated, EntryOk, UserOk, LogsInv, MessageOk;
    var s0, sess := Start(ids, refusalReleases), Session(c1.user, c1.device, 0);
    var pair := PairReached(ids, refusalReleases, c1, c2, 0, 1);
    var s1 := Run(s0, pair);
    assert PathFits(sess, f);
    var write := WriteRuns(s1, 0, sess, f);
    var s2 := Run(s1, write);
    var reach := ReachLoop(s2, 0, sess, f);
    var s3 := Run(s2, reach);
    PresentAdmits(s3.table, c3);
    var login := LoginLoop(s3, 2, c3, 2);
    PossibleConcat(s2, reach, login);
    PossibleConcat(s1, write, reach + login);
    PossibleConcat(s0, pair, write + (reach + login));
    es := pair + (write + (reach + login));
    PossibleIsLegal(s0, es);
    ReachedInv(ids, refusalReleases, es);
  }

  lemma PresentAdmits(t: Table, c: Connection)
    requires Present(t, c.user, c.device)
    ensures CanLogin(t, c.user, c.device)
  {}

  // ---------- what an election can lose ----------

  /** The backup at slot w has every message of this class that the one at slot l has. */
  ghost predicate HasAll(s: State, w: nat, l: nat, file: bool) {
    w < |s.backups| && l < |s.backups| && Prefix(Part(s.backups[l].log, file), Part(s.backups[w].log, file))
  }

  /** Whichever ids decide the election: its winner has all that the loser has, in every run that ends in the primary's
      death, if and only if the winner's slot is not the later one. */
  lemma WinnerHasAll(ids: seq<int>, refusalReleases: bool, w: nat, l: nat)
    requires w < |ids| && l < |ids|
    ensures
      (forall es, file | AllLegal(Start(ids, refusalReleases), es) && !Reached(ids, refusalReleases, es).alive ::
         HasAll(Reached(ids, refusalReleases, es), w, l, file))
      <==> w <= l
  {
    if w <= l {
      forall es, file | AllLegal(Start(ids, refusalReleases), es) && !Reached(ids, refusalReleases, es).alive
        ensures HasAll(Reached(ids, refusalReleases, es), w, l, file)
      {
        PrefixAgreement(ids, refusalReleases, es, w, l, file);
        hide Reached, Prefix, Part, AllLegal;
      }
    } else {
      var es := WinnerLacks(ids, refusalReleases, w, l);
      assert !HasAll(Reached(ids, refusalReleases, es), w, l, false);
    }
  }

  /** The primary dies in the middle of telling its backups of the first login. */
  lemma WinnerLacks(ids: seq<int>, refusalReleases: bool, w: nat, l: nat) returns (es: seq<Event>)
    requires l < w < |ids|
    ensures AllLegal(Start(ids, refusalReleases), es) && !Reached(ids, refusalReleases, es).alive
    ensures !HasAll(Reached(ids, refusalReleases, es), w, l, false)
  {
    hide *;
    var before := SentTo(ids, refusalReleases, l);
    es := before + [Crash];
    assert es[..|es| - 1] == before;
    ThenCrash(ids, refusalReleases, es);
    var c := Connection("user", 1, T1, 0);
    Lacks(Run(Start(ids, refusalReleases), before), Reached(ids, refusalReleases, es), w, l, InsertMsg(c));
  }

  /** The first login is under way and was sent to the backups up to this slot. */
  lemma SentTo(ids: seq<int>, refusalReleases: bool, l: nat) returns (es: seq<Event>)
    requires l < |ids|
    ensures AllLegal(Start(ids, refusalReleases), es)
    ensures
      var s := Run(Start(ids, refusalReleases), es);
      && |s.backups| == |ids|
      && forall i :: 0 <= i < |ids| ==> s.backups[i].log == if i <= l then [InsertMsg(Connection("user", 1, T1, 0))] else []
  {
    var s0, c := Start(ids, refusalReleases), Connection("user", 1, T1, 0);
    assert ConnectionOk(c) && Calm(s0) && |s0.backups| == |ids| && forall i :: 0 <= i < |ids| ==> s0.backups[i].log == [];
    EmptyTableInv();
    EmptyAdmits(c.user, c.device);
    hide *;
    CalmIs(s0);
    StartTable(ids, refusalReleases);
    var login := LoginLoop(s0, 0, c, 0);
    var sends := SomeSends(Run(s0, login), 0, l + 1);
    PossibleConcat(s0, login, sends);
    es := login + sends;
    PossibleIsLegal(s0, es);
  }

  lemma CalmIs(s: State)
    requires Calm(s)
    ensures s.alive && s.userLock.None?
  {}

  lemma StartTable(ids: seq<int>, refusalReleases: bool)
    ensures Start(ids, refusalReleases).table == EmptyTable() && Start(ids, refusalReleases).threads == map[]
  {}

  lemma ThenCrash(ids: seq<int>, refusalReleases: bool, es: seq<Event>)
    requires es != [] && es[|es| - 1] == Crash && AllLegal(Start(ids, refusalReleases), es[..|es| - 1])
    ensures
      var s, s' := Run(Start(ids, refusalReleases), es[..|es| - 1]), Reached(ids, refusalReleases, es);
      AllLegal(Start(ids, refusalReleases), es) && !s'.alive && s'.backups == s.backups
  {}

  lemma Lacks(s: State, s': State, w: nat, l: nat, m: Message)
    requires s'.backups == s.backups && l < w < |s.backups| && s.backups[l].log == [m] && s.backups[w].log == []
    requires m.InsertMsg?
    ensures !HasAll(s', w, l, false)
  {
    assert [m] == [] + [m];
    PartsAppend([], m);
  }

  /** The loop over the backups, n rounds further. */
  lemma {:induction false} SomeSends(s: State, tid: nat, n: nat) returns (es: seq<Event>)
    requires s.alive && tid in s.threads && s.threads[tid].Broadcast? && s.threads[tid].slot + n <= |s.backups|
    ensures Possible(s, es)
    ensures
      var s', t := Run(s, es), s.threads[tid];
      && s'.alive && |s'.backups| == |s.backups|
      && forall i :: 0 <= i < |s.backups| ==>
           s'.backups[i].log == s.backups[i].log + if t.slot <= i < t.slot + n then [t.message] else []
    decreases n
  {
    var t := s.threads[tid];
    if n == 0 {
      NoEvents(s);
      es := [];
    } else {
      var s1 := StepBroadcast(s, tid, t.message, t.slot, t.next);
      assert Step(s, Go(tid)) == s1;
      var rest := SomeSends(s1, tid, n - 1);
      GoThen(s, tid, rest);
      es := [Go(tid)] + rest;
    }
    hide Step, Run, Possible;
  }
}
