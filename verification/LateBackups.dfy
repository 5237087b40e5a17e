/** A backup that joins while devices are logged in: no snapshot is sent, so it replays, from an empty table, what
    happens from then on. */
module LateBackups {
  import opened Limits
  import opened SessionTable
  import opened SessionMap
  import opened SessionRuns

  /** The backup's table after these messages; None once it has dereferenced null. */
  function ReplayRun(b: Table, es: seq<SessionEvent>): Option<Table>
    decreases |es|
  {
    if es == [] then Some(b)
    else
      var next := ReplayOne(b, es[0]);
      if next.None? then None else ReplayRun(next.value, es[1..])
  }

  function ReplayOne(b: Table, e: SessionEvent): Option<Table> {
    match e
    case LoginOf(c, _) => ReplayInsert(b, c)
    case ExitOf(user, device) => Some(ReplayExit(b, user, device))
  }

  predicate Names(e: SessionEvent, user: string, device: int) { UserOf(e) == user && DeviceOf(e) == device }

  /** The device logs in or exits while the backup is there. */
  ghost predicate Seen(es: seq<SessionEvent>, user: string, device: int) {
    exists i :: 0 <= i < |es| && Names(es[i], user, device)
  }

  /** Only what the primary has is at the backup. */
  ghost predicate Within(b: Table, t: Table) {
    forall user, device | user != "" && device != -1 :: Present(b, user, device) ==> Present(t, user, device)
  }

  ghost predicate SamePresence(b: Table, t: Table) {
    forall user, device | user != "" && device != -1 :: Present(b, user, device) <==> Present(t, user, device)
  }

  // ---------- room at the backup ----------

  ghost predicate MapWithin(m': Sessions, m: Sessions) {
    forall user | user in m' :: user in m && m'[user].Keys <= m[user].Keys
  }

  lemma WithinMaps(b: Table, t: Table)
    requires TableInv(b) && TableInv(t) && Within(b, t)
    ensures MapWithin(Abs(b), Abs(t))
  {
    forall user | user in Abs(b) ensures user in Abs(t) && Abs(b)[user].Keys <= Abs(t)[user].Keys {
      var device := SomeDevice(b, user);
      DevicesWithin(b, t, user, device);
      forall d | d in Abs(b)[user].Keys ensures d in Abs(t)[user].Keys { DevicesWithin(b, t, user, d); }
    }
  }

  lemma SomeDevice(t: Table, user: string) returns (device: int)
    requires TableInv(t) && user in Abs(t)
    ensures device in Abs(t)[user]
  {
    AbsHas(t, user);
    var ds := t[UserAt(t, user)].devices;
    assert Live(ds);
    var i :| 0 <= i < |ds| && ds[i].id != -1;
    device := ds[i].id;
    DeviceMapHas(ds, device);
  }

  lemma DevicesWithin(b: Table, t: Table, user: string, device: int)
    requires Within(b, t) && user in Abs(b) && device in Abs(b)[user]
    ensures user in Abs(t) && device in Abs(t)[user]
  {
    AbsHas(b, user);
    DeviceMapHas(b[UserAt(b, user)].devices, device);
    hide Abs, Present;
    PresentIs(b, user, device);
    PresentIs(t, user, device);
  }

  lemma RoomWithin(m': Sessions, m: Sessions, user: string, device: int)
    requires MapWithin(m', m) && |m| <= MAX_USERS && (user in m ==> |m[user]| <= MAX_DEVICES)
    requires MapAdmits(m, user, device)
    ensures MapAdmits(m', user, device)
  {
    assert m'.Keys <= m.Keys;
    SmallerSet(m'.Keys, m.Keys);
    if user in m' {
      SmallerSet(m'[user].Keys, m[user].Keys);
    }
  }

  lemma {:induction false} SmallerSet<T>(a: set<T>, b: set<T>)
    requires a <= b
    ensures |a| <= |b| && (a != b ==> |a| < |b|)
  {
    assert b == a + (b - a);
  }

  /** No login that the primary admits is refused by a backup with less in its table. */
  lemma NeverRefused(b: Table, t: Table, user: string, device: int)
    requires TableInv(b) && TableInv(t) && Within(b, t) && user != "" && device != -1 && CanLogin(t, user, device)
    ensures CanLogin(b, user, device)
  {
    WithinMaps(b, t);
    LoginAdmission(t, user, device);
    LoginAdmission(b, user, device);
    LookupsRefine(t, user, device);
    AbsHas(t, user);
    hide Abs, Within, TableInv, Present, CanLogin;
    RoomWithin(Abs(b), Abs(t), user, device);
  }

  // ---------- one event ----------

  lemma LoginPresence(t: Table, c: Connection, socket: int, user: string, device: int)
    requires TableInv(t) && c.user != "" && c.device != -1 && CanLogin(t, c.user, c.device) && user != "" && device != -1
    ensures Present(Seated(t, c, socket), user, device) <==> Present(t, user, device) || (c.user == user && c.device == device)
  {
    LoginRefines(t, c, socket);
    hide Abs, Seated, Present, CanLogin;
    PresentIs(t, user, device);
    PresentIs(Seated(t, c, socket), user, device);
  }

  lemma ExitKeys(m: Sessions, name: string, id: int, user: string, device: int)
    ensures user in MapExit(m, name, id) && device in MapExit(m, name, id)[user] <==>
      user in m && device in m[user] && !(name == user && id == device)
  {
    if name in m && name == user {
      var rest := m[name] - {id};
      assert device in rest <==> device in m[name] && device != id;
      if rest == map[] { assert device !in rest; }
    }
  }

  lemma ExitPresence(t: Table, name: string, id: int, user: string, device: int)
    requires TableInv(t) && name != "" && id != -1 && Present(t, name, id) && user != "" && device != -1
    ensures Present(Vacated(t, name, id), user, device) <==> Present(t, user, device) && !(name == user && id == device)
  {
    ExitRefines(t, name, id);
    hide Abs, Vacated, Present;
    PresentIs(t, user, device);
    PresentIs(Vacated(t, name, id), user, device);
    ExitKeys(Abs(t), name, id, user, device);
    hide MapExit;
  }

  /** What an accepted event changes at the primary. */
  lemma NextPresence(t: Table, e: SessionEvent, user: string, device: int)
    requires TableInv(t) && Proper(e) && Accepts(t, e) && user != "" && device != -1
    ensures Present(Next(t, e), user, device) <==> if Names(e, user, device) then e.LoginOf? else Present(t, user, device)
  {
    NextForm(t, e);
    match e
    case LoginOf(c, socket) =>
      LoginPresence(t, c, socket, user, device);
      hide Login, CanLogin, Seated, TableInv, Present, Abs;
    case ExitOf(name, id) =>
      ExitPresence(t, name, id, user, device);
      hide Exit, Vacated, TableInv, Present, Abs;
  }

  /** What its message changes at a backup with less in its table. */
  lemma ReplayPresence(b: Table, t: Table, e: SessionEvent, user: string, device: int)
    requires TableInv(b) && TableInv(t) && Within(b, t) && Proper(e) && Accepts(t, e) && user != "" && device != -1
    ensures ReplayOne(b, e).Some? && TableInv(ReplayOne(b, e).value)
    ensures Present(ReplayOne(b, e).value, user, device) <==>
      if Names(e, user, device) then e.LoginOf? else Present(b, user, device)
  {
    NextForm(t, e);
    hide Next, Accepts, TableInv, Present, Within, ReplayInsert, ReplayExit, CanLogin, Seated, Vacated;
    match e
    case LoginOf(c, socket) =>
      NeverRefused(b, t, c.user, c.device);
      ReplayInsertForm(b, c);
      SeatedKeepsInv(b, c, c.clientSocket);
      LoginPresence(b, c, c.clientSocket, user, device);
    case ExitOf(name, id) =>
      ReplayExitForm(b, name, id);
      if Present(b, name, id) {
        VacatedKeepsInv(b, name, id);
        ExitPresence(b, name, id, user, device);
      }
  }

  lemma StepWithin(b: Table, t: Table, e: SessionEvent)
    requires TableInv(b) && TableInv(t) && Within(b, t) && Proper(e) && Accepts(t, e)
    ensures TableInv(Next(t, e)) && ReplayOne(b, e).Some? && TableInv(ReplayOne(b, e).value)
    ensures Within(ReplayOne(b, e).value, Next(t, e))
  {
    NextForm(t, e);
    ReplayPresence(b, t, e, "-", 0);
    hide TableInv, Present, Next, Accepts, ReplayOne, Proper, Names;
    forall user, device | user != "" && device != -1 && Present(ReplayOne(b, e).value, user, device)
      ensures Present(Next(t, e), user, device)
    {
      ReplayPresence(b, t, e, user, device);
      NextPresence(t, e, user, device);
    }
  }

  // ---------- runs ----------

  lemma SeenFirst(es: seq<SessionEvent>, user: string, device: int)
    requires es != []
    ensures Seen(es, user, device) <==> Names(es[0], user, device) || Seen(es[1..], user, device)
  {
    hide Names;
    if Seen(es[1..], user, device) {
      var i :| 0 <= i < |es[1..]| && Names(es[1..][i], user, device);
      assert Names(es[i + 1], user, device);
    }
    if Seen(es, user, device) && !Names(es[0], user, device) {
      var i :| 0 <= i < |es| && Names(es[i], user, device);
      assert Names(es[1..][i - 1], user, device);
    }
  }

  /** A backup knows a device exactly when the primary does and the device was there before or has been seen since;
      it never faults. */
  lemma {:induction false} KnowsWhatItSaw(b: Table, t: Table, es: seq<SessionEvent>, user: string, device: int)
    requires TableInv(b) && TableInv(t) && Within(b, t) && AllProper(es) && AllAccepted(t, es) && user != "" && device != -1
    ensures ReplayRun(b, es).Some? && TableInv(ReplayRun(b, es).value)
    ensures Present(ReplayRun(b, es).value, user, device) <==>
      Present(RunSessions(t, es), user, device) && (Present(b, user, device) || Seen(es, user, device))
    decreases |es|
  {
    hide TableInv, Present, Within, Next, Accepts, ReplayOne, Names, Seen, Proper;
    if es != [] {
      var e := es[0];
      assert Proper(e);
      StepWithin(b, t, e);
      ReplayPresence(b, t, e, user, device);
      NextPresence(t, e, user, device);
      SeenFirst(es, user, device);
      var b1, t1 := ReplayOne(b, e).value, Next(t, e);
      KnowsWhatItSaw(b1, t1, es[1..], user, device);
      if !Seen(es[1..], user, device) { UnseenStays(t1, es[1..], user, device); }
    } else {
      SeenNone(user, device);
      WithinOne(b, t, user, device);
    }
  }

  lemma SeenNone(user: string, device: int)
    ensures !Seen([], user, device)
  {}

  lemma WithinOne(b: Table, t: Table, user: string, device: int)
    requires Within(b, t) && user != "" && device != -1
    ensures Present(b, user, device) ==> Present(t, user, device)
  {}

  /** A device that does nothing stays as it is. */
  lemma {:induction false} UnseenStays(t: Table, es: seq<SessionEvent>, user: string, device: int)
    requires TableInv(t) && AllProper(es) && AllAccepted(t, es) && user != "" && device != -1 && !Seen(es, user, device)
    ensures Present(RunSessions(t, es), user, device) <==> Present(t, user, device)
    decreases |es|
  {
    hide TableInv, Present, Next, Accepts, Seen, Names, Proper;
    if es != [] {
      assert Proper(es[0]);
      SeenFirst(es, user, device);
      NextForm(t, es[0]);
      NextPresence(t, es[0], user, device);
      UnseenStays(Next(t, es[0]), es[1..], user, device);
    }
  }

  /** A backup that joins at table t has the primary's devices after a run, if and only if every device that was logged
      in when it joined has logged in again or exited since. */
  lemma LateAgreement(t: Table, es: seq<SessionEvent>)
    requires TableInv(t) && AllProper(es) && AllAccepted(t, es)
    ensures ReplayRun(EmptyTable(), es).Some?
    ensures SamePresence(ReplayRun(EmptyTable(), es).value, RunSessions(t, es)) <==>
      forall user, device | user != "" && device != -1 && Present(t, user, device) :: Seen(es, user, device)
  {
    EmptyTableInv();
    EmptyWithin(t);
    KnowsWhatItSaw(EmptyTable(), t, es, "-", 0);
    var b, t' := ReplayRun(EmptyTable(), es).value, RunSessions(t, es);
    hide TableInv, Present, Seen, ReplayRun, RunSessions, Within, AllAccepted, EmptyTable;
    forall user, device | user != "" && device != -1
      ensures Present(b, user, device) <==> Present(t', user, device) && Seen(es, user, device)
      ensures !Seen(es, user, device) ==> (Present(t', user, device) <==> Present(t, user, device))
    {
      KnowsWhatItSaw(EmptyTable(), t, es, user, device);
      NobodyIn(user, device);
      if !Seen(es, user, device) { UnseenStays(t, es, user, device); }
    }
  }

  lemma NobodyIn(user: string, device: int)
    requires user != "" && device != -1
    ensures !Present(EmptyTable(), user, device)
  {}

  lemma EmptyWithin(t: Table)
    ensures Within(EmptyTable(), t)
  {
    forall user, device | user != "" && device != -1 ensures !Present(EmptyTable(), user, device) { NobodyIn(user, device); }
  }

  /** In particular it never hears of a device that was there before and is quiet since, while the primary keeps it. */
  lemma QuietDeviceIsMissing(t: Table, es: seq<SessionEvent>, user: string, device: int)
    requires TableInv(t) && AllProper(es) && AllAccepted(t, es) && user != "" && device != -1
    requires Present(t, user, device) && !Seen(es, user, device)
    ensures ReplayRun(EmptyTable(), es).Some?
    ensures Present(RunSessions(t, es), user, device) && !Present(ReplayRun(EmptyTable(), es).value, user, device)
  {
    EmptyTableInv();
    EmptyWithin(t);
    KnowsWhatItSaw(EmptyTable(), t, es, user, device);
    NobodyIn(user, device);
    UnseenStays(t, es, user, device);
    hide *;
  }
}
