/** The table of logged-in users as a finite map from user name to the user's
    devices, and each table operation as an operation on that map. */
module SessionMap {
  import opened Limits
  import opened SessionTable

  datatype Sockets = Sockets(socket1: int, socket2: int, socket3: int)
  type Devices = map<int, Sockets>
  type Sessions = map<string, Devices>

  const UNPLUGGED := Sockets(-1, -1, -1)

  function DeviceMap(ds: seq<Device>): Devices {
    if ds == [] then map[]
    else if ds[0].id == -1 then DeviceMap(ds[1..])
    else DeviceMap(ds[1..])[ds[0].id := SocketsOf(ds[0])]
  }

  function SocketsOf(d: Device): Sockets {
    Sockets(d.socket1, d.socket2, d.socket3)
  }

  function Abs(t: Table): Sessions {
    if t == [] then map[]
    else if t[0].name == "" then Abs(t[1..])
    else Abs(t[1..])[t[0].name := DeviceMap(t[0].devices)]
  }

  // ---------- operations on the map ----------

  function PlugIn(s: Sockets, socketType: int, socket: int): Sockets {
    if socketType == T1 then s.(socket1 := socket)
    else if socketType == T2 then s.(socket2 := socket)
    else if socketType == T3 then s.(socket3 := socket)
    else s
  }

  function Get<K, V>(m: map<K, V>, k: K, default: V): V {
    if k in m then m[k] else default
  }

  function MapLogin(m: Sessions, c: Connection, socket: int): Sessions {
    var devices := Get(m, c.user, map[]);
    m[c.user := devices[c.device := PlugIn(Get(devices, c.device, UNPLUGGED), c.socketType, socket)]]
  }

  /** The map without this device, and without its user if that was the last device. */
  function MapExit(m: Sessions, user: string, device: int): Sessions {
    if user !in m then m
    else if m[user] - {device} == map[] then m - {user}
    else m[user := m[user] - {device}]
  }

  predicate MapAdmits(m: Sessions, user: string, device: int) {
    if user in m then device in m[user] || |m[user]| < MAX_DEVICES else |m| < MAX_USERS
  }

  // ---------- the abstraction ----------

  ghost predicate DistinctIds(ds: seq<Device>) {
    forall i, j :: 0 <= i < j < |ds| && ds[i].id != -1 ==> ds[i].id != ds[j].id
  }

  ghost predicate DistinctNames(t: Table) {
    forall u, v :: 0 <= u < v < |t| && t[u].name != "" ==> t[u].name != t[v].name
  }

  lemma {:induction false} DeviceMapHas(ds: seq<Device>, id: int)
    ensures id in DeviceMap(ds) <==> id != -1 && DeviceAt(ds, id) < |ds|
    ensures id in DeviceMap(ds) ==> DeviceMap(ds)[id] == SocketsOf(ds[DeviceAt(ds, id)])
  {
    if ds != [] { DeviceMapHas(ds[1..], id); }
  }

  lemma {:induction false} AbsHas(t: Table, name: string)
    ensures name in Abs(t) <==> name != "" && UserAt(t, name) < |t|
    ensures name in Abs(t) ==> Abs(t)[name] == DeviceMap(t[UserAt(t, name)].devices)
  {
    if t != [] { AbsHas(t[1..], name); }
  }

  /** An entry under another key may be added before or after one entry is replaced. */
  lemma Reinsert<K, V>(m: map<K, V>, k: K, v: V, dropped: K, added: K, w: V)
    requires k != dropped
    ensures m[k := v] - {dropped} == (m - {dropped})[k := v]
    ensures k != added ==> m[k := v][added := w] == m[added := w][k := v]
    ensures k != added ==> (m[k := v] - {dropped})[added := w] == (m - {dropped})[added := w][k := v]
  {}

  /** Filling, rewriting or freeing a slot changes one entry of the row's map. */
  lemma {:induction false} SlotUpdate(ds: seq<Device>, d: nat, dev: Device)
    requires d < |ds| && DistinctIds(ds) && DistinctIds(ds[d := dev])
    requires ds[d].id == -1 || dev.id == -1 || ds[d].id == dev.id
    ensures DeviceMap(ds[d := dev]) ==
      if dev.id == -1 then DeviceMap(ds) - {ds[d].id} else DeviceMap(ds)[dev.id := SocketsOf(dev)]
  {
    var ds' := ds[d := dev];
    DeviceMapHas(ds, -1);
    if d == 0 {
      assert ds'[1..] == ds[1..];
      DeviceMapHas(ds[1..], ds[0].id);
      assert DeviceMap(ds) - {ds[0].id} == DeviceMap(ds[1..]);
    } else {
      assert ds'[1..] == ds[1..][d - 1 := dev];
      SlotUpdate(ds[1..], d - 1, dev);
      assert ds[0].id != -1 ==> ds[0].id != ds[d].id && ds'[0].id != ds'[d].id;
      if ds[0].id != -1 {
        Reinsert(DeviceMap(ds[1..]), ds[0].id, SocketsOf(ds[0]), ds[d].id, dev.id, SocketsOf(dev));
      }
    }
  }

  /** Taking, rewriting or freeing a row changes one entry of the table's map. */
  lemma {:induction false} RowUpdate(t: Table, u: nat, row: User)
    requires u < |t| && DistinctNames(t) && DistinctNames(t[u := row])
    requires t[u].name == "" || row.name == "" || t[u].name == row.name
    ensures Abs(t[u := row]) ==
      if row.name == "" then Abs(t) - {t[u].name} else Abs(t)[row.name := DeviceMap(row.devices)]
  {
    var t' := t[u := row];
    AbsHas(t, "");
    if u == 0 {
      assert t'[1..] == t[1..];
      AbsHas(t[1..], t[0].name);
      assert Abs(t) - {t[0].name} == Abs(t[1..]);
    } else {
      assert t'[1..] == t[1..][u - 1 := row];
      RowUpdate(t[1..], u - 1, row);
      assert t[0].name != "" ==> t[0].name != t[u].name && t'[0].name != t'[u].name;
      if t[0].name != "" {
        Reinsert(Abs(t[1..]), t[0].name, DeviceMap(t[0].devices), t[u].name, row.name, DeviceMap(row.devices));
      }
    }
  }

  // ---------- counting ----------

  lemma {:induction false} LiveCountIsSize(ds: seq<Device>)
    requires DistinctIds(ds)
    ensures |DeviceMap(ds)| == LiveCount(ds)
  {
    if ds != [] {
      LiveCountIsSize(ds[1..]);
      DeviceMapHas(ds[1..], ds[0].id);
    }
  }

  lemma {:induction false} LoggedIsSize(t: Table)
    requires DistinctNames(t)
    ensures |Abs(t)| == Logged(t)
  {
    if t != [] {
      LoggedIsSize(t[1..]);
      AbsHas(t[1..], t[0].name);
    }
  }

  lemma {:induction false} NotLiveIsEmpty(ds: seq<Device>)
    ensures !Live(ds) <==> DeviceMap(ds) == map[]
  {
    if ds != [] {
      NotLiveIsEmpty(ds[1..]);
      assert Live(ds) <==> ds[0].id != -1 || Live(ds[1..]) by {
        forall i | 0 <= i < |ds[1..]| ensures ds[1..][i] == ds[i + 1] {}
      }
      if ds[0].id != -1 { assert ds[0].id in DeviceMap(ds); }
    }
  }

  // ---------- table operations are map operations ----------

  lemma InsertUserRefines(t: Table, name: string)
    requires WellFormed(t) && name != ""
    ensures
      var (t', code) := InsertUser(t, name);
      if name in Abs(t) then t' == t && code == UserAlreadyConnected
      else if |Abs(t)| == MAX_USERS then t' == t && code == Error
      else WellFormed(t') && Abs(t') == Abs(t)[name := map[]] && code == Success
  {
    AbsHas(t, name);
    LoggedIsSize(t);
    var free := UserAt(t, "");
    if UserAt(t, name) == |t| && free < |t| {
      var row := t[free].(name := name);
      assert WellFormed(t[free := row]);
      RowUpdate(t, free, row);
      NotLiveIsEmpty(row.devices);
    }
  }

  lemma InsertDeviceRefines(t: Table, name: string, id: int)
    requires WellFormed(t) && name != "" && id != -1
    ensures
      var (t', code) := InsertDevice(t, name, id);
      if name !in Abs(t) then t' == t && code == Error
      else if id in Abs(t)[name] then t' == t && code == DeviceAlreadyConnected
      else if |Abs(t)[name]| == MAX_DEVICES then t' == t && code == MaxDevicesReached
      else WellFormed(t') && Abs(t') == Abs(t)[name := Abs(t)[name][id := UNPLUGGED]] && code == Success
  {
    AbsHas(t, name);
    var u := UserAt(t, name);
    if u < |t| {
      var ds := t[u].devices;
      var free := DeviceAt(ds, -1);
      LiveCountIsSize(ds);
      DeviceMapHas(ds, id);
      if DeviceAt(ds, id) == |ds| && free < |ds| {
        var dev := ds[free].(id := id);
        assert RowInv(ds[free := dev]);
        SlotUpdate(ds, free, dev);
        RowUpdate(t, u, t[u].(devices := ds[free := dev]));
      }
    }
  }

  lemma InsertSocketRefines(t: Table, name: string, id: int, socket: int, socketType: int)
    requires WellFormed(t) && name != "" && id != -1
    ensures
      var t' := InsertSocket(t, name, id, socket, socketType);
      if !(T1 <= socketType <= T3) then t' == Some(t)
      else if name !in Abs(t) || id !in Abs(t)[name] then t' == None
      else
        && t'.Some? && WellFormed(t'.value)
        && Abs(t'.value) == Abs(t)[name := Abs(t)[name][id := PlugIn(Abs(t)[name][id], socketType, socket)]]
  {
    AbsHas(t, name);
    var u := UserAt(t, name);
    if u < |t| {
      var ds := t[u].devices;
      var d := DeviceAt(ds, id);
      DeviceMapHas(ds, id);
      if d < |ds| {
        var dev := Plug(ds[d], socketType, socket);
        SlotUpdate(ds, d, dev);
        var row := t[u].(devices := ds[d := dev]);
        assert Live(ds) <==> Live(row.devices) by { assert ds[d].id != -1 && row.devices[d].id != -1; }
        RowUpdate(t, u, row);
      }
    }
  }

  lemma RemoveDeviceRefines(t: Table, name: string, id: int)
    requires WellFormed(t) && name != "" && id != -1
    ensures
      var (t', code) := RemoveDevice(t, name, id);
      if name !in Abs(t) || id !in Abs(t)[name] then t' == t && code == Error
      else WellFormed(t') && Abs(t') == Abs(t)[name := Abs(t)[name] - {id}] && code == Success
  {
    AbsHas(t, name);
    var u := UserAt(t, name);
    if u < |t| {
      var ds := t[u].devices;
      var d := DeviceAt(ds, id);
      DeviceMapHas(ds, id);
      if d < |ds| {
        SlotUpdate(ds, d, FREE);
        RowUpdate(t, u, t[u].(devices := ds[d := FREE]));
      }
    }
  }

  lemma RemoveUserRefines(t: Table, name: string)
    requires WellFormed(t) && name != ""
    ensures
      var t' := RemoveUser(t, name);
      if name !in Abs(t) || Abs(t)[name] != map[] then t' == t
      else WellFormed(t') && Abs(t') == Abs(t) - {name}
  {
    AbsHas(t, name);
    var u := UserAt(t, name);
    if u < |t| {
      NotLiveIsEmpty(t[u].devices);
      if !Live(t[u].devices) { RowUpdate(t, u, t[u].(name := "")); }
    }
  }

  lemma PresentIs(t: Table, name: string, id: int)
    requires name != "" && id != -1
    ensures Present(t, name, id) <==> name in Abs(t) && id in Abs(t)[name]
  {
    AbsHas(t, name);
    if UserAt(t, name) < |t| { DeviceMapHas(t[UserAt(t, name)].devices, id); }
  }

  lemma LookupsRefine(t: Table, name: string, id: int)
    requires WellFormed(t) && name != "" && id != -1
    ensures Present(t, name, id) <==> name in Abs(t) && id in Abs(t)[name]
    ensures IsDeviceConnected(t, name) <==> (name in Abs(t) ==> Abs(t)[name] != map[])
    ensures Logged(t) == |Abs(t)|
    ensures name in Abs(t) ==> UserAt(t, name) < |t| && LiveCount(t[UserAt(t, name)].devices) == |Abs(t)[name]|
  {
    AbsHas(t, name);
    LoggedIsSize(t);
    if UserAt(t, name) < |t| {
      var ds := t[UserAt(t, name)].devices;
      DeviceMapHas(ds, id);
      NotLiveIsEmpty(ds);
      LiveCountIsSize(ds);
    }
  }

  // ---------- login and exit on the map ----------

  /** A login is accepted exactly when the map has room for it. */
  lemma LoginAdmission(t: Table, user: string, device: int)
    requires TableInv(t) && user != "" && device != -1
    ensures CanLogin(t, user, device) <==> MapAdmits(Abs(t), user, device)
  {
    AbsHas(t, user);
    LoggedIsSize(t);
    var u := Seat(t, user);
    if u < |t| {
      LiveCountIsSize(t[u].devices);
      DeviceMapHas(t[u].devices, device);
      if UserAt(t, user) == |t| { assert t[u].devices[0] == FREE; }
    }
  }

  /** An accepted login adds or updates exactly that device. */
  lemma LoginRefines(t: Table, c: Connection, socket: int)
    requires TableInv(t) && c.user != "" && c.device != -1 && CanLogin(t, c.user, c.device)
    ensures Abs(Seated(t, c, socket)) == MapLogin(Abs(t), c, socket)
  {
    hide Abs, DeviceMap;
    var u := Seat(t, c.user);
    var ds := t[u].devices;
    SeatedEntry(t, c, socket);
    DeviceMapHas(ds, c.device);
    AbsHas(t, c.user);
    NotLiveIsEmpty(ds);
    hide Seated, RowInv, WellFormed, TableInv;
  }

  /** The one entry of the map that a login changes. */
  lemma SeatedEntry(t: Table, c: Connection, socket: int)
    requires TableInv(t) && c.user != "" && c.device != -1 && CanLogin(t, c.user, c.device)
    ensures
      var ds := t[Seat(t, c.user)].devices;
      var dev := Plug(ds[Slot(ds, c.device)].(id := c.device), c.socketType, socket);
      Abs(Seated(t, c, socket)) == Abs(t)[c.user := DeviceMap(ds)[c.device := SocketsOf(dev)]]
  {
    hide Abs, DeviceMap;
    var u := Seat(t, c.user);
    var ds := t[u].devices;
    var d := Slot(ds, c.device);
    var row := Seated(t, c, socket)[u];
    SeatedKeepsInv(t, c, socket);
    assert ds[d := row.devices[d]] == row.devices;
    SlotUpdate(ds, d, row.devices[d]);
    RowUpdate(t, u, row);
  }

  lemma ExitRefines(t: Table, name: string, id: int)
    requires TableInv(t) && name != "" && id != -1 && Present(t, name, id)
    ensures Abs(Vacated(t, name, id)) == MapExit(Abs(t), name, id)
  {
    AbsHas(t, name);
    var u := UserAt(t, name);
    var ds := t[u].devices;
    var d := DeviceAt(ds, id);
    VacatedKeepsInv(t, name, id);
    var t' := Vacated(t, name, id);
    SlotUpdate(ds, d, FREE);
    NotLiveIsEmpty(t'[u].devices);
    RowUpdate(t, u, t'[u]);
  }
}
