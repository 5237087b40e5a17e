/** Whole runs of logins and exits: the invariant, what a device leaves behind,
    and what a backup that replays the same messages ends up with. */
module SessionRuns {
  import opened Limits
  import opened SessionTable
  import opened SessionMap

  datatype SessionEvent = LoginOf(conn: Connection, socket: int) | ExitOf(user: string, device: int)

  function UserOf(e: SessionEvent): string { if e.LoginOf? then e.conn.user else e.user }
  function DeviceOf(e: SessionEvent): int { if e.LoginOf? then e.conn.device else e.device }

  predicate Proper(e: SessionEvent) { UserOf(e) != "" && DeviceOf(e) != -1 }

  predicate Accepts(t: Table, e: SessionEvent) {
    match e
    case LoginOf(c, socket) => Login(t, c, socket).1 == Accepted
    case ExitOf(user, device) => Exit(t, user, device).Some?
  }

  /** The table after the event; a faulting exit leaves it alone. */
  function Next(t: Table, e: SessionEvent): Table {
    match e
    case LoginOf(c, socket) => Login(t, c, socket).0
    case ExitOf(user, device) => var r := Exit(t, user, device); if r.Some? then r.value else t
  }

  function RunSessions(t: Table, es: seq<SessionEvent>): Table
    decreases |es|
  {
    if es == [] then t else RunSessions(Next(t, es[0]), es[1..])
  }

  ghost predicate AllProper(es: seq<SessionEvent>) { forall i :: 0 <= i < |es| ==> Proper(es[i]) }

  predicate AllAccepted(t: Table, es: seq<SessionEvent>)
    decreases |es|
  {
    es == [] || (Accepts(t, es[0]) && AllAccepted(Next(t, es[0]), es[1..]))
  }

  lemma NextForm(t: Table, e: SessionEvent)
    requires TableInv(t) && Proper(e)
    ensures TableInv(Next(t, e))
    ensures !Accepts(t, e) ==> Next(t, e) == t
    ensures e.LoginOf? ==> (Accepts(t, e) <==> CanLogin(t, e.conn.user, e.conn.device))
    ensures e.LoginOf? && Accepts(t, e) ==> Next(t, e) == Seated(t, e.conn, e.socket)
    ensures e.ExitOf? ==> (Accepts(t, e) <==> Present(t, e.user, e.device))
    ensures e.ExitOf? && Accepts(t, e) ==> Next(t, e) == Vacated(t, e.user, e.device)
  {
    match e
    case LoginOf(c, socket) =>
      LoginDecision(t, c, socket);
      if CanLogin(t, c.user, c.device) { SeatedKeepsInv(t, c, socket); }
    case ExitOf(user, device) =>
      ExitEffect(t, user, device);
      if Present(t, user, device) { VacatedKeepsInv(t, user, device); }
  }

  /** The table invariant holds after every run of accepted and refused logins and exits. */
  lemma {:induction false} RunKeepsInv(t: Table, es: seq<SessionEvent>)
    requires TableInv(t) && AllProper(es)
    ensures TableInv(RunSessions(t, es))
    decreases |es|
  {
    if es != [] {
      NextForm(t, es[0]);
      RunKeepsInv(Next(t, es[0]), es[1..]);
    }
  }

  /** From any reachable table a login is accepted exactly when there is room for its device;
      a refusal is nack1 or nack3 and leaves the table alone, so nack2, nack5 and silence never happen. */
  lemma ReachableLogin(es: seq<SessionEvent>, c: Connection, socket: int)
    requires AllProper(es) && c.user != "" && c.device != -1
    ensures
      var t := RunSessions(EmptyTable(), es);
      var (t', outcome) := Login(t, c, socket);
      && (outcome == Accepted <==> MapAdmits(Abs(t), c.user, c.device))
      && (outcome == Accepted ==> TableInv(t') && Abs(t') == MapLogin(Abs(t), c, socket))
      && (outcome != Accepted ==> t' == t && outcome == Refused(if c.user in Abs(t) then "nack3" else "nack1"))
  {
    EmptyTableInv();
    RunKeepsInv(EmptyTable(), es);
    var t := RunSessions(EmptyTable(), es);
    LoginDecision(t, c, socket);
    LoginAdmission(t, c.user, c.device);
    AbsHas(t, c.user);
    if CanLogin(t, c.user, c.device) {
      SeatedKeepsInv(t, c, socket);
      LoginRefines(t, c, socket);
    }
  }

  // ---------- a device that has come and gone leaves nothing ----------

  /** Logging a device in, any number of times on any channels. */
  function LoginAll(user: string, device: int, plugs: seq<(int, int)>): seq<SessionEvent> {
    if plugs == [] then []
    else [LoginOf(Connection(user, device, plugs[0].0, -1), plugs[0].1)] + LoginAll(user, device, plugs[1..])
  }

  function WithDevice(t: Table, u: nat, user: string, d: nat, dev: Device): Table
    requires u < |t| && d < |t[u].devices|
  {
    t[u := User(user, t[u].devices[d := dev])]
  }

  lemma WithDeviceTwice(t: Table, u: nat, user: string, d: nat, dev: Device, dev': Device)
    requires u < |t| && d < |t[u].devices|
    ensures WithDevice(WithDevice(t, u, user, d, dev), u, user, d, dev') == WithDevice(t, u, user, d, dev')
    ensures t[u].name == user && t[u].devices[d] == dev ==> WithDevice(t, u, user, d, dev) == t
  {
    assert t[u].devices[d := dev][d := dev'] == t[u].devices[d := dev'];
    if t[u].devices[d] == dev { assert t[u].devices[d := dev] == t[u].devices; }
  }

  /** One login of a device that belongs in row u, slot d. */
  lemma LoginWrites(t: Table, c: Connection, socket: int) returns (dev: Device)
    requires TableInv(t) && c.user != "" && c.device != -1 && CanLogin(t, c.user, c.device)
    ensures dev.id == c.device && Login(t, c, socket).1 == Accepted
    ensures
      var u := Seat(t, c.user);
      var d := Slot(t[u].devices, c.device);
      var t' := WithDevice(t, u, c.user, d, dev);
      && Login(t, c, socket).0 == t' && TableInv(t')
      && Present(t', c.user, c.device) && CanLogin(t', c.user, c.device)
      && Seat(t', c.user) == UserAt(t', c.user) == u && Slot(t'[u].devices, c.device) == DeviceAt(t'[u].devices, c.device) == d
  {
    LoginDecision(t, c, socket);
    SeatedKeepsInv(t, c, socket);
    var u := Seat(t, c.user);
    var d := Slot(t[u].devices, c.device);
    dev := Seated(t, c, socket)[u].devices[d];
    UserAtUnique(Seated(t, c, socket), c.user, u);
    DeviceAtUnique(Seated(t, c, socket)[u].devices, c.device, d);
  }

  lemma {:induction false} LoginAllWrites(t: Table, user: string, device: int, plugs: seq<(int, int)>) returns (dev: Device)
    requires TableInv(t) && user != "" && device != -1 && CanLogin(t, user, device) && plugs != []
    ensures dev.id == device && AllAccepted(t, LoginAll(user, device, plugs))
    ensures
      var u := Seat(t, user);
      var d := Slot(t[u].devices, device);
      var t' := WithDevice(t, u, user, d, dev);
      && RunSessions(t, LoginAll(user, device, plugs)) == t' && TableInv(t')
      && UserAt(t', user) == u && DeviceAt(t'[u].devices, device) == d
    decreases |plugs|
  {
    var es := LoginAll(user, device, plugs);
    dev := LoginWrites(t, es[0].conn, es[0].socket);
    var t1 := Next(t, es[0]);
    assert es[1..] == LoginAll(user, device, plugs[1..]);
    if |plugs| == 1 {
      assert es[1..] == [];
    } else {
      var u := Seat(t, user);
      var dev' := LoginAllWrites(t1, user, device, plugs[1..]);
      WithDeviceTwice(t, u, user, Slot(t[u].devices, device), dev, dev');
      dev := dev';
    }
  }

  /** A fresh device's logins, in any order, followed by its exit restore the table slot by slot. */
  lemma LoginsThenExitRestore(t: Table, user: string, device: int, plugs: seq<(int, int)>)
    requires TableInv(t) && user != "" && device != -1 && plugs != []
    requires !Present(t, user, device) && CanLogin(t, user, device)
    ensures
      var es := LoginAll(user, device, plugs);
      var t' := RunSessions(t, es);
      AllAccepted(t, es) && Exit(t', user, device) == Some(t)
  {
    var u := Seat(t, user);
    var d := Slot(t[u].devices, device);
    var dev := LoginAllWrites(t, user, device, plugs);
    var t' := WithDevice(t, u, user, d, dev);
    ExitEffect(t', user, device);
    VacatedRestores(t, user, device, dev);
  }

  lemma VacatedRestores(t: Table, user: string, device: int, dev: Device)
    requires TableInv(t) && user != "" && device != -1
    requires !Present(t, user, device) && CanLogin(t, user, device)
    requires
      var u := Seat(t, user);
      var d := Slot(t[u].devices, device);
      var t' := WithDevice(t, u, user, d, dev);
      UserAt(t', user) == u && DeviceAt(t'[u].devices, device) == d
    ensures
      var u := Seat(t, user);
      var t' := WithDevice(t, u, user, Slot(t[u].devices, device), dev);
      Present(t', user, device) && Vacated(t', user, device) == t
  {
    var u := Seat(t, user);
    var ds := t[u].devices;
    var d := Slot(ds, device);
    assert ds[d] == FREE;
    assert ds[d := dev][d := FREE] == ds;
    assert t[u].name == if Live(ds) then user else "";
  }

  /** The run without one device's events. */
  function Without(es: seq<SessionEvent>, user: string, device: int): seq<SessionEvent> {
    if es == [] then []
    else if UserOf(es[0]) == user && DeviceOf(es[0]) == device then Without(es[1..], user, device)
    else [es[0]] + Without(es[1..], user, device)
  }

  ghost predicate NoEmptyUser(m: Sessions) { forall name :: name in m ==> m[name] != map[] }

  lemma NoUserIsEmpty(t: Table)
    requires TableInv(t)
    ensures NoEmptyUser(Abs(t))
  {
    forall name | name in Abs(t) ensures Abs(t)[name] != map[] {
      AbsHas(t, name);
      NotLiveIsEmpty(t[UserAt(t, name)].devices);
    }
  }

  /** Removing a device commutes with logins of other devices and undoes its own. */
  lemma ExitCommutesWithLogin(m: Sessions, c: Connection, socket: int, user: string, device: int)
    requires NoEmptyUser(m)
    ensures MapExit(MapLogin(m, c, socket), user, device) ==
      if c.user == user && c.device == device then MapExit(m, user, device)
      else MapLogin(MapExit(m, user, device), c, socket)
  {
    var m1 := MapLogin(m, c, socket);
    if c.user == user {
      var devices := Get(m, user, map[]);
      if c.device == device {
        assert m1[user] - {device} == devices - {device};
      } else {
        assert c.device in m1[user] - {device};
        assert m1[user] - {device} ==
          (devices - {device})[c.device := PlugIn(Get(devices, c.device, UNPLUGGED), c.socketType, socket)];
      }
    }
  }

  lemma ExitCommutesWithExit(m: Sessions, user1: string, device1: int, user2: string, device2: int)
    ensures MapExit(MapExit(m, user1, device1), user2, device2) == MapExit(MapExit(m, user2, device2), user1, device1)
  {
    if user1 in m && user2 in m {
      if user1 == user2 {
        var devices := m[user1];
        assert devices - {device1} - {device2} == devices - {device2} - {device1};
      }
    }
  }

  lemma ExitTwice(m: Sessions, user: string, device: int)
    ensures MapExit(MapExit(m, user, device), user, device) == MapExit(m, user, device)
  {
    if user in m { assert m[user] - {device} - {device} == m[user] - {device}; }
  }

  /** What the run without the device still admits, once it admitted it with the device. */
  lemma RoomRemains(m: Sessions, user: string, device: int, name: string, id: int)
    requires NoEmptyUser(m) && |m| <= MAX_USERS
    requires name != user || id != device
    requires MapAdmits(m, name, id)
    ensures MapAdmits(MapExit(m, user, device), name, id)
  {
    var m' := MapExit(m, user, device);
    if user in m {
      assert m'.Keys == m.Keys || m'.Keys == m.Keys - {user};
      assert |m'.Keys| <= |m.Keys|;
      if name == user {
        assert (m[user] - {device}).Keys == m[user].Keys - {device};
        if user !in m' { assert |m'.Keys| == |m.Keys| - 1; }
      }
    }
  }

  lemma LoginWithout(t: Table, t': Table, c: Connection, socket: int, user: string, device: int)
    requires TableInv(t) && TableInv(t') && c.user != "" && c.device != -1 && CanLogin(t, c.user, c.device)
    requires Abs(t') == MapExit(Abs(t), user, device)
    ensures
      var after := MapExit(Abs(Seated(t, c, socket)), user, device);
      if c.user == user && c.device == device then Abs(t') == after
      else CanLogin(t', c.user, c.device) && Abs(Seated(t', c, socket)) == after
  {
    NoUserIsEmpty(t);
    LoginRefines(t, c, socket);
    ExitCommutesWithLogin(Abs(t), c, socket, user, device);
    if c.user != user || c.device != device {
      LoginAdmission(t, c.user, c.device);
      LoginAdmission(t', c.user, c.device);
      LoggedIsSize(t);
      RoomRemains(Abs(t), user, device, c.user, c.device);
      LoginRefines(t', c, socket);
    }
  }

  lemma ExitWithout(t: Table, t': Table, name: string, id: int, user: string, device: int)
    requires TableInv(t) && TableInv(t') && name != "" && id != -1 && Present(t, name, id)
    requires Abs(t') == MapExit(Abs(t), user, device)
    ensures
      var after := MapExit(Abs(Vacated(t, name, id)), user, device);
      if name == user && id == device then Abs(t') == after
      else Present(t', name, id) && Abs(Vacated(t', name, id)) == after
  {
    hide *;
    ExitRefines(t, name, id);
    ExitCommutesWithExit(Abs(t), name, id, user, device);
    if name == user && id == device {
      ExitTwice(Abs(t), user, device);
    } else {
      StaysPresent(t, t', name, id, user, device);
      ExitRefines(t', name, id);
    }
  }

  lemma StaysPresent(t: Table, t': Table, name: string, id: int, user: string, device: int)
    requires name != "" && id != -1 && Present(t, name, id)
    requires Abs(t') == MapExit(Abs(t), user, device) && (name != user || id != device)
    ensures Present(t', name, id)
  {
    hide Abs, Present, MapExit;
    PresentIs(t, name, id);
    PresentIs(t', name, id);
    OtherStays(Abs(t), name, id, user, device);
  }

  lemma OtherStays(m: Sessions, name: string, id: int, user: string, device: int)
    requires name in m && id in m[name] && (name != user || id != device)
    ensures name in MapExit(m, user, device) && id in MapExit(m, user, device)[name]
  {
    if name == user { assert id in m[user] - {device}; }
  }

  /** One event, seen by the table with the device and by a table that never had it. */
  lemma StepWithout(t: Table, t': Table, e: SessionEvent, user: string, device: int)
    requires TableInv(t) && TableInv(t') && Proper(e) && Accepts(t, e)
    requires Abs(t') == MapExit(Abs(t), user, device)
    ensures
      if UserOf(e) == user && DeviceOf(e) == device then Abs(t') == MapExit(Abs(Next(t, e)), user, device)
      else Accepts(t', e) && Abs(Next(t', e)) == MapExit(Abs(Next(t, e)), user, device)
  {
    NextForm(t, e);
    NextForm(t', e);
    match e
    case LoginOf(c, socket) => LoginWithout(t, t', c, socket, user, device);
    case ExitOf(name, id) => ExitWithout(t, t', name, id, user, device);
  }

  lemma {:induction false} RunWithout(t: Table, t': Table, es: seq<SessionEvent>, user: string, device: int)
    requires TableInv(t) && TableInv(t') && AllProper(es) && AllAccepted(t, es)
    requires Abs(t') == MapExit(Abs(t), user, device)
    ensures AllAccepted(t', Without(es, user, device))
    ensures Abs(RunSessions(t', Without(es, user, device))) == MapExit(Abs(RunSessions(t, es)), user, device)
    decreases |es|
  {
    hide TableInv, Abs, MapExit, Next, Accepts, Proper;
    if es != [] {
      var e := es[0];
      NextForm(t, e);
      NextForm(t', e);
      StepWithout(t, t', e, user, device);
      if UserOf(e) == user && DeviceOf(e) == device {
        RunWithout(Next(t, e), t', es[1..], user, device);
      } else {
        RunWithout(Next(t, e), Next(t', e), es[1..], user, device);
        assert Without(es, user, device)[1..] == Without(es[1..], user, device);
      }
    }
  }

  /** A device absent before and after a run that refuses nobody might as well not have been there:
      the run without its events refuses nobody either and ends in the same map. */
  lemma DeviceLeavesNoTrace(t: Table, es: seq<SessionEvent>, user: string, device: int)
    requires TableInv(t) && AllProper(es) && AllAccepted(t, es) && user != "" && device != -1
    requires !Present(t, user, device) && !Present(RunSessions(t, es), user, device)
    ensures AllAccepted(t, Without(es, user, device))
    ensures Abs(RunSessions(t, Without(es, user, device))) == Abs(RunSessions(t, es))
  {
    RunKeepsInv(t, es);
    AbsentExit(t, user, device);
    AbsentExit(RunSessions(t, es), user, device);
    RunWithout(t, t, es, user, device);
  }

  lemma AbsentExit(t: Table, user: string, device: int)
    requires TableInv(t) && user != "" && device != -1 && !Present(t, user, device)
    ensures MapExit(Abs(t), user, device) == Abs(t)
  {
    LookupsRefine(t, user, device);
    NoUserIsEmpty(t);
    if user in Abs(t) { assert Abs(t)[user] - {device} == Abs(t)[user]; }
  }

  // ---------- a backup replaying session messages ----------

  /** A backup handling INSERT_USER: it stores the descriptor the client sent, not the server's. */
  function ReplayInsert(t: Table, c: Connection): Option<Table> {
    var t1 := InsertUser(t, c.user).0;
    var t2 := InsertDevice(t1, c.user, c.device).0;
    InsertSocket(t2, c.user, c.device, c.clientSocket, c.socketType)
  }

  /** A backup handling EXIT: an absent device is only reported. */
  function ReplayExit(t: Table, user: string, device: int): Table {
    var (t1, code) := RemoveDevice(t, user, device);
    if code == Success && !IsDeviceConnected(t1, user) then RemoveUser(t1, user) else t1
  }

  /** Same names and device ids in the same slots; sockets may differ. */
  ghost predicate SameShape(t: Table, t': Table) {
    && |t| == |t'|
    && (forall u :: 0 <= u < |t| ==> t[u].name == t'[u].name && SameIds(t[u].devices, t'[u].devices))
  }

  ghost predicate SameIds(ds: seq<Device>, ds': seq<Device>) {
    && |ds| == |ds'|
    && (forall d :: 0 <= d < |ds| ==> ds[d].id == ds'[d].id)
  }

  lemma SameIdsFind(ds: seq<Device>, ds': seq<Device>, id: int)
    requires SameIds(ds, ds')
    ensures DeviceAt(ds, id) == DeviceAt(ds', id)
    ensures Live(ds) == Live(ds')
  {
    if DeviceAt(ds', id) < |ds| { DeviceAtUnique(ds, id, DeviceAt(ds', id)); }
  }

  lemma SameShapeFind(t: Table, t': Table, user: string, device: int)
    requires SameShape(t, t')
    ensures Seat(t, user) == Seat(t', user)
    ensures CanLogin(t, user, device) == CanLogin(t', user, device)
    ensures Present(t, user, device) == Present(t', user, device)
  {
    SameNames(t, t');
    if Seat(t, user) < |t| {
      var ds, ds' := t[Seat(t, user)].devices, t'[Seat(t, user)].devices;
      SameIdsFind(ds, ds', device);
      SameIdsFind(ds, ds', -1);
    }
  }

  lemma ReplayInsertForm(t: Table, c: Connection)
    requires TableInv(t) && c.user != "" && c.device != -1 && CanLogin(t, c.user, c.device)
    ensures ReplayInsert(t, c) == Some(Seated(t, c, c.clientSocket))
  {
    LoginDecision(t, c, c.clientSocket);
  }

  lemma SeatedShape(t: Table, t': Table, c: Connection, socket: int, socket': int)
    requires SameShape(t, t') && CanLogin(t, c.user, c.device) && CanLogin(t', c.user, c.device)
    ensures SameShape(Seated(t, c, socket), Seated(t', c, socket'))
  {
    SameShapeFind(t, t', c.user, c.device);
    var u := Seat(t, c.user);
    SameIdsFind(t[u].devices, t'[u].devices, c.device);
    SameIdsFind(t[u].devices, t'[u].devices, -1);
  }

  /** Replaying an accepted login keeps the backup's table in the primary's shape, and never faults. */
  lemma ReplayInsertAgrees(t: Table, t': Table, c: Connection, socket: int)
    requires TableInv(t) && TableInv(t') && SameShape(t, t')
    requires c.user != "" && c.device != -1 && Login(t, c, socket).1 == Accepted
    ensures
      var r := ReplayInsert(t', c);
      r.Some? && TableInv(r.value) && SameShape(Login(t, c, socket).0, r.value)
  {
    LoginDecision(t, c, socket);
    SameShapeFind(t, t', c.user, c.device);
    ReplayInsertForm(t', c);
    SeatedKeepsInv(t', c, c.clientSocket);
    SeatedShape(t, t', c, socket, c.clientSocket);
  }

  lemma ReplayExitForm(t: Table, user: string, device: int)
    requires TableInv(t) && user != "" && device != -1
    ensures ReplayExit(t, user, device) == if Present(t, user, device) then Vacated(t, user, device) else t
  {
    ExitEffect(t, user, device);
  }

  lemma ReplayExitAgrees(t: Table, t': Table, user: string, device: int)
    requires TableInv(t) && TableInv(t') && SameShape(t, t')
    requires user != "" && device != -1 && Exit(t, user, device).Some?
    ensures
      var r := ReplayExit(t', user, device);
      TableInv(r) && SameShape(Exit(t, user, device).value, r)
  {
    ExitEffect(t, user, device);
    SameShapeFind(t, t', user, device);
    ExitEffect(t', user, device);
    VacatedKeepsInv(t', user, device);
    var u := UserAt(t, user);
    SameNames(t, t');
    SameIdsFind(t[u].devices, t'[u].devices, device);
    SameIdsFind(Vacated(t, user, device)[u].devices, Vacated(t', user, device)[u].devices, device);
  }
}
