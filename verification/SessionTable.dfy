/** The table of logged-in users as a value: what each table operation and each
    login or exit does to it. Rows and device slots are allocated first-fit. */
module SessionTable {
  import opened Limits

  datatype Device = Device(id: int, socket1: int, socket2: int, socket3: int)
  datatype User = User(name: string, devices: seq<Device>)
  type Table = seq<User>

  datatype Connection = Connection(user: string, device: int, socketType: int, clientSocket: int)

  datatype Code = Success | Error | MaxUsersReached | UserAlreadyConnected | MaxDevicesReached | DeviceAlreadyConnected

  // Fault is a null dereference; Silent is the path on which no reply is written.
  datatype Outcome = Accepted | Refused(reply: string) | Silent | Fault

  const T1 := 1
  const T2 := 2
  const T3 := 3
  const FREE := Device(-1, -1, -1, -1)

  // ---------- searching ----------

  /** Index of the first row with this name, or |t|. */
  function UserAt(t: Table, name: string): (i: nat)
    ensures i <= |t|
    ensures i < |t| ==> t[i].name == name
    ensures forall j :: 0 <= j < i ==> t[j].name != name
  {
    if t == [] then 0 else if t[0].name == name then 0 else 1 + UserAt(t[1..], name)
  }

  /** Index of the first slot with this device id, or |ds|. */
  function DeviceAt(ds: seq<Device>, id: int): (i: nat)
    ensures i <= |ds|
    ensures i < |ds| ==> ds[i].id == id
    ensures forall j :: 0 <= j < i ==> ds[j].id != id
  {
    if ds == [] then 0 else if ds[0].id == id then 0 else 1 + DeviceAt(ds[1..], id)
  }

  predicate Live(ds: seq<Device>) {
    exists i :: 0 <= i < |ds| && ds[i].id != -1
  }

  function LiveCount(ds: seq<Device>): (n: nat)
    ensures n <= |ds|
    ensures n == |ds| <==> DeviceAt(ds, -1) == |ds|
  {
    if ds == [] then 0 else (if ds[0].id != -1 then 1 else 0) + LiveCount(ds[1..])
  }

  function Logged(t: Table): (n: nat)
    ensures n <= |t|
    ensures n == |t| <==> UserAt(t, "") == |t|
  {
    if t == [] then 0 else (if t[0].name != "" then 1 else 0) + Logged(t[1..])
  }

  // ---------- table operations ----------

  function EmptyTable(): Table {
    seq(MAX_USERS, i => User("", seq(MAX_DEVICES, j => FREE)))
  }

  function InsertUser(t: Table, name: string): (Table, Code) {
    var free := UserAt(t, "");
    if UserAt(t, name) < |t| then (t, UserAlreadyConnected)
    else if Logged(t) >= MAX_USERS then (t, Error)
    else if free < |t| then (t[free := t[free].(name := name)], Success)
    else (t, Error)
  }

  function InsertDevice(t: Table, name: string, id: int): (Table, Code) {
    var u := UserAt(t, name);
    if u == |t| then (t, Error)
    else
      var ds := t[u].devices;
      var free := DeviceAt(ds, -1);
      if DeviceAt(ds, id) < |ds| then (t, DeviceAlreadyConnected)
      else if LiveCount(ds) >= MAX_DEVICES || free == |ds| then (t, MaxDevicesReached)
      else (t[u := t[u].(devices := ds[free := ds[free].(id := id)])], Success)
  }

  function Plug(d: Device, socketType: int, socket: int): Device {
    if socketType == T1 then d.(socket1 := socket)
    else if socketType == T2 then d.(socket2 := socket)
    else if socketType == T3 then d.(socket3 := socket)
    else d
  }

  /** None is the null dereference of a device that is not in the table. */
  function InsertSocket(t: Table, name: string, id: int, socket: int, socketType: int): Option<Table> {
    var u := UserAt(t, name);
    if !(T1 <= socketType <= T3) then Some(t)
    else if u == |t| || DeviceAt(t[u].devices, id) == |t[u].devices| then None
    else
      var ds := t[u].devices;
      var d := DeviceAt(ds, id);
      Some(t[u := t[u].(devices := ds[d := Plug(ds[d], socketType, socket)])])
  }

  function RemoveDevice(t: Table, name: string, id: int): (Table, Code) {
    var u := UserAt(t, name);
    if u == |t| || DeviceAt(t[u].devices, id) == |t[u].devices| then (t, Error)
    else
      var ds := t[u].devices;
      (t[u := t[u].(devices := ds[DeviceAt(ds, id) := FREE])], Success)
  }

  function RemoveUser(t: Table, name: string): Table {
    var u := UserAt(t, name);
    if u == |t| || Live(t[u].devices) then t else t[u := t[u].(name := "")]
  }

  /** True for a user that is not found as well: ERROR is not zero. */
  predicate IsDeviceConnected(t: Table, name: string) {
    var u := UserAt(t, name);
    u == |t| || Live(t[u].devices)
  }

  /** A login without its messages to the backups: the new table and what is answered. */
  function Login(t: Table, c: Connection, socket: int): (Table, Outcome) {
    var (t1, userCode) := InsertUser(t, c.user);
    var (t2, deviceCode) := InsertDevice(t1, c.user, c.device);
    var plugged := InsertSocket(t2, c.user, c.device, socket, c.socketType);
    var accept := if plugged.Some? then (plugged.value, Accepted) else (t2, Fault);
    match userCode
    case Error => (t1, Refused("nack1"))
    case MaxUsersReached => (t1, Refused("nack2"))
    case UserAlreadyConnected =>
      if deviceCode == MaxDevicesReached then (t2, Refused("nack3"))
      else if deviceCode == DeviceAlreadyConnected || deviceCode == Success then accept
      else (t2, Silent)
    case Success =>
      if deviceCode == Error then (RemoveUser(t2, c.user), Refused("nack5")) else accept
    case _ => (t1, Silent)
  }

  /** An exit without its messages to the backups; None is the null dereference of an absent device. */
  function Exit(t: Table, name: string, id: int): Option<Table> {
    var u := UserAt(t, name);
    if u == |t| || DeviceAt(t[u].devices, id) == |t[u].devices| then None
    else
      var t1 := RemoveDevice(t, name, id).0;
      Some(if IsDeviceConnected(t1, name) then t1 else RemoveUser(t1, name))
  }

  // ---------- the invariant ----------

  ghost predicate RowInv(ds: seq<Device>) {
    && |ds| == MAX_DEVICES
    && (forall i, j :: 0 <= i < j < |ds| && ds[i].id != -1 ==> ds[i].id != ds[j].id)
    && (forall i :: 0 <= i < |ds| && ds[i].id == -1 ==> ds[i] == FREE)
  }

  /** Holds between any two table operations. */
  ghost predicate WellFormed(t: Table) {
    && |t| == MAX_USERS
    && (forall u :: 0 <= u < |t| ==> RowInv(t[u].devices))
    && (forall u :: 0 <= u < |t| && t[u].name == "" ==> !Live(t[u].devices))
    && (forall u, v :: 0 <= u < v < |t| && t[u].name != "" ==> t[u].name != t[v].name)
  }

  /** Holds whenever the lock on the table is free. */
  ghost predicate TableInv(t: Table) {
    && WellFormed(t)
    && (forall u :: 0 <= u < |t| && t[u].name != "" ==> Live(t[u].devices))
  }

  // ---------- closed forms of login and exit ----------

  /** The row a login of this user works on. */
  function Seat(t: Table, name: string): (u: nat)
    ensures u <= |t|
  {
    if UserAt(t, name) < |t| then UserAt(t, name) else UserAt(t, "")
  }

  /** The slot a login of this device works on. */
  function Slot(ds: seq<Device>, id: int): (d: nat)
    ensures d <= |ds|
  {
    if DeviceAt(ds, id) < |ds| then DeviceAt(ds, id) else DeviceAt(ds, -1)
  }

  predicate CanLogin(t: Table, name: string, id: int) {
    var u := Seat(t, name);
    u < |t| && Slot(t[u].devices, id) < |t[u].devices|
  }

  function Seated(t: Table, c: Connection, socket: int): Table
    requires CanLogin(t, c.user, c.device)
  {
    var u := Seat(t, c.user);
    var ds := t[u].devices;
    var d := Slot(ds, c.device);
    t[u := User(c.user, ds[d := Plug(ds[d].(id := c.device), c.socketType, socket)])]
  }

  predicate Present(t: Table, name: string, id: int) {
    var u := UserAt(t, name);
    u < |t| && DeviceAt(t[u].devices, id) < |t[u].devices|
  }

  function Vacated(t: Table, name: string, id: int): Table
    requires Present(t, name, id)
  {
    var u := UserAt(t, name);
    var ds := t[u].devices[DeviceAt(t[u].devices, id) := FREE];
    t[u := User(if Live(ds) then name else "", ds)]
  }

  lemma UserAtUnique(t: Table, name: string, i: nat)
    requires i < |t| && t[i].name == name
    requires forall j :: 0 <= j < i ==> t[j].name != name
    ensures UserAt(t, name) == i
  {}

  lemma DeviceAtUnique(ds: seq<Device>, id: int, i: nat)
    requires i < |ds| && ds[i].id == id
    requires forall j :: 0 <= j < i ==> ds[j].id != id
    ensures DeviceAt(ds, id) == i
  {}

  /** Only the devices of rows differ, so names are found where they were. */
  lemma SameNames(t: Table, t': Table)
    requires |t| == |t'| && forall u :: 0 <= u < |t| ==> t[u].name == t'[u].name
    ensures forall name :: UserAt(t, name) == UserAt(t', name)
  {
    forall name ensures UserAt(t, name) == UserAt(t', name) {
      if UserAt(t', name) < |t| { UserAtUnique(t, name, UserAt(t', name)); }
    }
  }

  /** Inserting a device and its socket into row u, when the device or a free slot is there. */
  lemma InsertDeviceForm(t: Table, u: nat, c: Connection, socket: int)
    requires WellFormed(t) && c.device != -1
    requires u < |t| && UserAt(t, c.user) == u
    ensures
      var ds := t[u].devices;
      var d := Slot(ds, c.device);
      var (t2, code) := InsertDevice(t, c.user, c.device);
      if d == |ds| then t2 == t && code == MaxDevicesReached
      else
        && (code == Success || code == DeviceAlreadyConnected)
        && InsertSocket(t2, c.user, c.device, socket, c.socketType) ==
           Some(t[u := User(c.user, ds[d := Plug(ds[d].(id := c.device), c.socketType, socket)])])
  {
    var ds := t[u].devices;
    var d := Slot(ds, c.device);
    var (t2, code) := InsertDevice(t, c.user, c.device);
    if d < |ds| {
      SameNames(t, t2);
      DeviceAtUnique(t2[u].devices, c.device, d);
      var t3 := t[u := User(c.user, ds[d := Plug(ds[d].(id := c.device), c.socketType, socket)])];
      assert t2[u].devices[d := t3[u].devices[d]] == t3[u].devices;
      assert t2[u := t3[u]] == t3;
      assert ds[d := ds[d].(id := c.device)] == t2[u].devices;
      if !(T1 <= c.socketType <= T3) { assert t3 == t2; }
    }
  }

  /** The whole decision tree of a login: what it does, and the two replies it never gives. */
  lemma LoginDecision(t: Table, c: Connection, socket: int)
    requires TableInv(t) && c.user != "" && c.device != -1
    ensures Login(t, c, socket) ==
      if CanLogin(t, c.user, c.device) then (Seated(t, c, socket), Accepted)
      else if UserAt(t, c.user) < |t| then (t, Refused("nack3"))
      else (t, Refused("nack1"))
  {
    hide InsertDevice, InsertSocket, RemoveUser;
    if UserAt(t, c.user) < |t| {
      InsertDeviceForm(t, UserAt(t, c.user), c, socket);
    } else if UserAt(t, "") < |t| {
      NewUserLogin(t, c, socket);
    }
  }

  /** The first login of a user who finds a free row. */
  lemma NewUserLogin(t: Table, c: Connection, socket: int)
    requires TableInv(t) && c.user != "" && c.device != -1
    requires UserAt(t, c.user) == |t| && UserAt(t, "") < |t|
    ensures CanLogin(t, c.user, c.device) && Login(t, c, socket) == (Seated(t, c, socket), Accepted)
  {
    var u := UserAt(t, "");
    var t1 := t[u := t[u].(name := c.user)];
    UserAtUnique(t1, c.user, u);
    assert t1[u].devices[0] == FREE;
    assert InsertUser(t, c.user) == (t1, Success);
    InsertDeviceForm(t1, u, c, socket);
    assert t1[u := Seated(t, c, socket)[u]] == Seated(t, c, socket);
    hide InsertUser, InsertDevice, InsertSocket, RemoveUser, Live, RowInv;
  }

  /** The whole effect of an exit: only a device that is not there makes it fault. */
  lemma ExitEffect(t: Table, name: string, id: int)
    requires TableInv(t) && name != "" && id != -1
    ensures Exit(t, name, id) == if Present(t, name, id) then Some(Vacated(t, name, id)) else None
  {
    if Present(t, name, id) {
      var u, t1 := UserAt(t, name), RemoveDevice(t, name, id).0;
      SameNames(t, t1);
      assert t1[u := Vacated(t, name, id)[u]] == Vacated(t, name, id);
    }
  }

  // ---------- the invariant is kept ----------

  lemma EmptyTableInv()
    ensures TableInv(EmptyTable())
  {}

  lemma SeatedKeepsInv(t: Table, c: Connection, socket: int)
    requires TableInv(t) && c.user != "" && c.device != -1 && CanLogin(t, c.user, c.device)
    ensures TableInv(Seated(t, c, socket))
    ensures Present(Seated(t, c, socket), c.user, c.device)
  {
    var t' := Seated(t, c, socket);
    var u := Seat(t, c.user);
    assert t'[u].devices[Slot(t[u].devices, c.device)].id != -1;
    assert t'[u].name == c.user;
  }

  lemma VacatedKeepsInv(t: Table, name: string, id: int)
    requires TableInv(t) && name != "" && id != -1 && Present(t, name, id)
    ensures TableInv(Vacated(t, name, id))
    ensures !Present(Vacated(t, name, id), name, id)
  {
    var t' := Vacated(t, name, id);
    var u := UserAt(t, name);
    if UserAt(t', name) < |t| { assert UserAt(t', name) == u; }
  }
}
