/** The server's global arrays and the routines that search and update them in place. */
module SessionServer {
  import opened Limits
  import opened SessionTable
  import opened Disk

  datatype BackupServer = BackupServer(id: int, socket: int)

  /** Index of the first slot without a backup, or |bs|. */
  function FreeSlot(bs: seq<BackupServer>): (i: nat)
    ensures i <= |bs| && (i < |bs| ==> bs[i].id == -1) && forall j :: 0 <= j < i ==> bs[j].id != -1
  {
    if bs == [] then 0 else if bs[0].id == -1 then 0 else 1 + FreeSlot(bs[1..])
  }

  lemma FreeSlotIs(bs: seq<BackupServer>, i: nat)
    requires i <= |bs| && (i < |bs| ==> bs[i].id == -1) && forall j :: 0 <= j < i ==> bs[j].id != -1
    ensures FreeSlot(bs) == i
  {}

  class Server {
    const users: array<User>
    const backupServers: array<BackupServer>
    /** The messages written to each slot's socket so far. */
    const sent: array<seq<Message>>

    ghost predicate Valid()
      reads this, users
    {
      && users.Length == MAX_USERS
      && (forall u :: 0 <= u < users.Length ==> |users[u].devices| == MAX_DEVICES)
      && backupServers.Length == sent.Length
    }

    /** initiate_user_controller_structure and initiate_backup_server_structure */
    constructor (maxServers: Positive)
      ensures Valid() && users[..] == EmptyTable() && TableInv(users[..])
      ensures fresh(users) && fresh(backupServers) && fresh(sent) && sent.Length == maxServers
      ensures forall i :: 0 <= i < backupServers.Length ==> backupServers[i] == BackupServer(-1, -1) && sent[i] == []
    {
      users := new User[MAX_USERS](_ => User("", seq(MAX_DEVICES, j => FREE)));
      backupServers := new BackupServer[maxServers](_ => BackupServer(-1, -1));
      sent := new seq<Message>[maxServers](_ => []);
      new;
      assert users[..] == EmptyTable();
      EmptyTableInv();
    }

    // ---------- searching ----------

    /** get_user; users.Length stands for nullptr. */
    method GetUser(name: string) returns (u: nat)
      ensures u == UserAt(users[..], name)
    {
      u := 0;
      while u < users.Length && users[u].name != name
        invariant u <= users.Length
        invariant forall j :: 0 <= j < u ==> users[j].name != name
      {
        u := u + 1;
      }
      if u < users.Length { UserAtUnique(users[..], name, u); }
    }

    /** The inner loop of get_device, get_available_device; the row's length stands for nullptr. */
    method FindDevice(u: nat, id: int) returns (d: nat)
      requires u < users.Length
      ensures d == DeviceAt(users[u].devices, id)
    {
      d := 0;
      var n := |users[u].devices|;
      while d < n && users[u].devices[d].id != id
        invariant d <= n
        invariant forall j :: 0 <= j < d ==> users[u].devices[j].id != id
      {
        d := d + 1;
      }
      if d < n { DeviceAtUnique(users[u].devices, id, d); }
    }

    /** is_device_connected: ERROR, which is true, for a user that is not found. */
    method IsConnected(name: string) returns (connected: bool)
      ensures connected == IsDeviceConnected(users[..], name)
    {
      var u := GetUser(name);
      if u == users.Length { return true; }
      var d := 0;
      var n := |users[u].devices|;
      while d < n
        invariant 0 <= d <= n
        invariant forall j :: 0 <= j < d ==> users[u].devices[j].id == -1
      {
        if users[u].devices[d].id != -1 { return true; }
        d := d + 1;
      }
      return false;
    }

    /** number_of_devices of a user that is found */
    method NumberOfDevices(u: nat) returns (n: nat)
      requires u < users.Length
      ensures n == LiveCount(users[u].devices)
    {
      var ds := users[u].devices;
      n := 0;
      for d := 0 to |ds|
        invariant n + LiveCount(ds[d..]) == LiveCount(ds)
      {
        assert ds[d..][1..] == ds[d + 1..];
        if ds[d].id != -1 { n := n + 1; }
      }
    }

    /** number_of_users_logged */
    method NumberOfUsersLogged() returns (n: nat)
      ensures n == Logged(users[..])
    {
      n := 0;
      for u := 0 to users.Length
        invariant n + Logged(users[u..]) == Logged(users[..])
      {
        assert users[u..][1..] == users[u + 1..];
        if users[u].name != "" { n := n + 1; }
      }
    }

    // ---------- updating ----------

    method AddUser(name: string) returns (code: Code)
      requires Valid()
      modifies users
      ensures Valid() && (users[..], code) == InsertUser(old(users[..]), name)
    {
      var u := GetUser(name);
      if u < users.Length { return UserAlreadyConnected; }
      var n := NumberOfUsersLogged();
      if n >= MAX_USERS { return Error; }
      var free := GetUser("");
      if free < users.Length {
        users[free] := users[free].(name := name);
        return Success;
      }
      return Error;
    }

    method AddDevice(name: string, id: int) returns (code: Code)
      requires Valid()
      modifies users
      ensures Valid() && (users[..], code) == InsertDevice(old(users[..]), name, id)
    {
      var u := GetUser(name);
      if u == users.Length { return Error; }
      var d := FindDevice(u, id);
      if d < |users[u].devices| { return DeviceAlreadyConnected; }
      var n := NumberOfDevices(u);
      if n >= MAX_DEVICES { return MaxDevicesReached; }
      var free := FindDevice(u, -1);
      users[u] := users[u].(devices := users[u].devices[free := users[u].devices[free].(id := id)]);
      return Success;
    }

    /** insert_socket dereferences the device unless the type is not one of the three. */
    method AddSocket(name: string, id: int, socket: int, socketType: int)
      requires Valid() && InsertSocket(users[..], name, id, socket, socketType).Some?
      modifies users
      ensures Valid() && Some(users[..]) == InsertSocket(old(users[..]), name, id, socket, socketType)
    {
      if T1 <= socketType <= T3 {
        var u := GetUser(name);
        var d := FindDevice(u, id);
        users[u] := users[u].(devices := users[u].devices[d := Plug(users[u].devices[d], socketType, socket)]);
      }
    }

    method DropDevice(name: string, id: int) returns (code: Code)
      requires Valid()
      modifies users
      ensures Valid() && (users[..], code) == RemoveDevice(old(users[..]), name, id)
    {
      var u := GetUser(name);
      if u == users.Length { return Error; }
      var d := FindDevice(u, id);
      if d == |users[u].devices| { return Error; }
      users[u] := users[u].(devices := users[u].devices[d := FREE]);
      return Success;
    }

    /** remove_user goes over every row; with distinct names it clears at most one. */
    method DropUser(name: string)
      requires Valid() && WellFormed(users[..]) && name != ""
      modifies users
      ensures Valid() && users[..] == RemoveUser(old(users[..]), name)
    {
      ghost var before := users[..];
      ghost var u := UserAt(before, name);
      for i := 0 to users.Length
        invariant Valid()
        invariant i <= u ==> users[..] == before
        invariant i > u ==> users[..] == RemoveUser(before, name)
      {
        if users[i].name == name {
          assert i == u;
          var connected := IsConnected(name);
          if connected { return; }
          users[i] := users[i].(name := "");
        }
      }
    }

    // ---------- messages to the backups ----------

    /** The loop over the slots: every registered backup gets the message, in slot order. */
    method SendToBackups(m: Message)
      requires Valid()
      modifies sent
      ensures Valid()
      ensures forall i :: 0 <= i < sent.Length ==>
        sent[i] == old(sent[i]) + if backupServers[i].id != -1 then [m] else []
    {
      for i := 0 to backupServers.Length
        invariant forall j :: 0 <= j < i ==> sent[j] == old(sent[j]) + if backupServers[j].id != -1 then [m] else []
        invariant forall j :: i <= j < sent.Length ==> sent[j] == old(sent[j])
      {
        if backupServers[i].id != -1 { sent[i] := sent[i] + [m]; }
      }
    }

    /** insert_server: the first free slot, if there is one. */
    method InsertServer(id: int, socket: int) returns (code: Code)
      requires Valid()
      modifies backupServers
      ensures
        var slot := FreeSlot(old(backupServers[..]));
        && (code == Success <==> slot < backupServers.Length) && (code == Error <==> slot == backupServers.Length)
        && backupServers[..] ==
           if code == Success then old(backupServers[..])[slot := BackupServer(id, socket)] else old(backupServers[..])
    {
      var i := 0;
      while i < backupServers.Length && backupServers[i].id != -1
        invariant 0 <= i <= backupServers.Length
        invariant forall j :: 0 <= j < i ==> backupServers[j].id != -1
      {
        i := i + 1;
      }
      FreeSlotIs(backupServers[..], i);
      if i == backupServers.Length { return Error; }
      backupServers[i] := BackupServer(id, socket);
      return Success;
    }

    // ---------- login and exit ----------

    /** handle_user_controller_structure, between wait and post. From a table in order no branch dereferences
        null, and the branches of nack2, nack5 and of an unknown user are never taken. */
    method HandleLogin(c: Connection, socket: int) returns (outcome: Outcome)
      requires Valid() && TableInv(users[..]) && c.user != "" && c.device != -1
      modifies users, sent
      ensures Valid() && TableInv(users[..])
      ensures (users[..], outcome) == Login(old(users[..]), c, socket)
      ensures outcome == Accepted || outcome == Refused("nack1") || outcome == Refused("nack3")
      ensures outcome == Accepted <==> CanLogin(old(users[..]), c.user, c.device)
      ensures forall i :: 0 <= i < sent.Length ==>
        sent[i] == old(sent[i]) + if outcome == Accepted && backupServers[i].id != -1 then [InsertMsg(c)] else []
    {
      LoginDecision(users[..], c, socket);
      if CanLogin(users[..], c.user, c.device) { SeatedKeepsInv(users[..], c, socket); }
      hide InsertUser, InsertDevice, InsertSocket, CanLogin, Seated, TableInv, RemoveUser;
      var userCode := AddUser(c.user);
      if userCode == Error {
        outcome := Refused("nack1");
      } else if userCode == UserAlreadyConnected {
        var deviceCode := AddDevice(c.user, c.device);
        if deviceCode == MaxDevicesReached {
          outcome := Refused("nack3");
        } else if deviceCode == DeviceAlreadyConnected || deviceCode == Success {
          AddSocket(c.user, c.device, socket, c.socketType);
          SendToBackups(InsertMsg(c));
          outcome := Accepted;
        } else {
          assert false;
        }
      } else if userCode == Success {
        var deviceCode := AddDevice(c.user, c.device);
        if deviceCode == Error {
          assert false;
        } else {
          AddSocket(c.user, c.device, socket, c.socketType);
          SendToBackups(InsertMsg(c));
          outcome := Accepted;
        }
      } else {
        assert false;
      }
    }

    /** exitCommand, between wait and post; get_device must find the device, whose sockets are then closed. */
    method ExitCommand(user: string, device: int)
      requires Valid() && TableInv(users[..]) && user != "" && device != -1
      requires Present(users[..], user, device)
      modifies users, sent
      ensures Valid() && TableInv(users[..])
      ensures Some(users[..]) == Exit(old(users[..]), user, device)
      ensures !Present(users[..], user, device)
      ensures forall i :: 0 <= i < sent.Length ==>
        sent[i] == old(sent[i]) + if backupServers[i].id != -1 then [ExitMsg(user, device)] else []
    {
      ExitEffect(users[..], user, device);
      VacatedKeepsInv(users[..], user, device);
      RemovalIsWellFormed(users[..], user, device);
      hide Vacated, TableInv, RemoveUser;
      var code := DropDevice(user, device);
      var connected := IsConnected(user);
      if !connected { DropUser(user); }
      SendToBackups(ExitMsg(user, device));
    }
  }

  lemma RemovalIsWellFormed(t: Table, user: string, device: int)
    requires WellFormed(t) && user != "" && device != -1
    ensures WellFormed(RemoveDevice(t, user, device).0)
  {}
}
