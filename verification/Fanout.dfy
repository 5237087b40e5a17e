/** Which devices an upload or delete is announced to. */
module Fanout {
  import opened SessionTable
  import opened SessionMap
  import opened SessionRuns

  /** The devices a notification goes to, in slot order: live, and passing the test on both
      the sender's descriptor and the sender's device id. */
  function Targets(ds: seq<Device>, device: int, socket: int): seq<Device> {
    if ds == [] then []
    else
      (if ds[0].id != -1 && socket != ds[0].socket2 && device != ds[0].id then [ds[0]] else [])
      + Targets(ds[1..], device, socket)
  }

  lemma {:induction false} TargetsAre(ds: seq<Device>, device: int, socket: int)
    requires DistinctIds(ds)
    ensures
      var ts := Targets(ds, device, socket);
      && (forall d :: d in ts <==> d in ds && d.id != -1 && d.id != device && d.socket2 != socket)
      && (forall i, j :: 0 <= i < j < |ts| ==> ts[i].id != ts[j].id)
  {
    if ds != [] {
      TargetsAre(ds[1..], device, socket);
      forall d ensures d in ds <==> d == ds[0] || d in ds[1..] {}
      if ds[0].id != -1 { assert forall d :: d in ds[1..] ==> d.id != ds[0].id; }
    }
  }

  /** Every target once, and the test on the descriptor drops nobody exactly when the sender's
      descriptor is not the second socket of another live device of the same user. */
  lemma FanoutExact(ds: seq<Device>, device: int, socket: int)
    requires RowInv(ds)
    ensures
      var ts := Targets(ds, device, socket);
      && (forall i, j :: 0 <= i < j < |ts| ==> ts[i].id != ts[j].id)
      && (forall d :: d in ts ==> d in ds && d.id in DeviceMap(ds) && d.id != device)
      && ((forall d :: d in ds && d.id in DeviceMap(ds) && d.id != device ==> d in ts)
          <==> (forall d :: d in ds && d.id != -1 && d.id != device ==> d.socket2 != socket))
  {
    TargetsAre(ds, device, socket);
    forall d | d in ds ensures d.id in DeviceMap(ds) <==> d.id != -1 {
      DeviceMapHas(ds, d.id);
    }
  }

  // ---------- distinct descriptors ----------

  function SocketAt(t: Table, u: nat, d: nat, k: int): int
    requires u < |t| && d < |t[u].devices|
  {
    var dev := t[u].devices[d];
    if k == T1 then dev.socket1 else if k == T2 then dev.socket2 else dev.socket3
  }

  ghost predicate At(t: Table, u: int, d: int, k: int) {
    0 <= u < |t| && 0 <= d < |t[u].devices| && T1 <= k <= T3
  }

  ghost predicate DistinctSockets(t: Table) {
    forall u, d, k, u', d', k' ::
      At(t, u, d, k) && At(t, u', d', k') && SocketAt(t, u, d, k) == SocketAt(t, u', d', k') != -1
      ==> u == u' && d == d' && k == k'
  }

  /** What accept returns: a descriptor that no device of the table has open. */
  ghost predicate FreshSocket(t: Table, socket: int) {
    socket != -1 && forall u, d, k :: At(t, u, d, k) ==> SocketAt(t, u, d, k) != socket
  }

  ghost predicate FreshRun(t: Table, es: seq<SessionEvent>)
    decreases |es|
  {
    es == [] || ((es[0].LoginOf? ==> FreshSocket(t, es[0].socket)) && FreshRun(Next(t, es[0]), es[1..]))
  }

  lemma SeatedKeepsDistinct(t: Table, c: Connection, socket: int)
    requires TableInv(t) && CanLogin(t, c.user, c.device) && DistinctSockets(t) && FreshSocket(t, socket)
    ensures DistinctSockets(Seated(t, c, socket))
  {
    var t' := Seated(t, c, socket);
    var u0 := Seat(t, c.user);
    var d0 := Slot(t[u0].devices, c.device);
    forall u, d, k | At(t', u, d, k)
      ensures At(t, u, d, k)
      ensures SocketAt(t', u, d, k) ==
        if u == u0 && d == d0 && k == c.socketType then socket else SocketAt(t, u, d, k)
    {}
  }

  lemma VacatedKeepsDistinct(t: Table, user: string, device: int)
    requires Present(t, user, device) && DistinctSockets(t)
    ensures DistinctSockets(Vacated(t, user, device))
  {
    var t' := Vacated(t, user, device);
    forall u, d, k | At(t', u, d, k)
      ensures At(t, u, d, k)
      ensures SocketAt(t', u, d, k) == -1 || SocketAt(t', u, d, k) == SocketAt(t, u, d, k)
    {}
  }

  lemma {:induction false} FreshRunKeepsDistinct(t: Table, es: seq<SessionEvent>)
    requires TableInv(t) && AllProper(es) && FreshRun(t, es) && DistinctSockets(t)
    ensures DistinctSockets(RunSessions(t, es))
    decreases |es|
  {
    if es != [] {
      var e := es[0];
      NextForm(t, e);
      if Accepts(t, e) {
        match e
        case LoginOf(c, socket) => SeatedKeepsDistinct(t, c, socket);
        case ExitOf(user, device) => VacatedKeepsDistinct(t, user, device);
      }
      FreshRunKeepsDistinct(Next(t, e), es[1..]);
    }
  }

  /** After any run over fresh descriptors, what a device sends on one of its own descriptors goes
      exactly once to each other live device of its user, and to no descriptor of anybody else. */
  lemma ReachableFanout(es: seq<SessionEvent>, u: nat, own: nat, channel: int)
    requires AllProper(es) && FreshRun(EmptyTable(), es)
    requires
      var t := RunSessions(EmptyTable(), es);
      At(t, u, own, channel) && t[u].devices[own].id != -1 && SocketAt(t, u, own, channel) != -1
    ensures
      var t := RunSessions(EmptyTable(), es);
      var ds := t[u].devices;
      var ts := Targets(ds, ds[own].id, SocketAt(t, u, own, channel));
      && (forall i, j :: 0 <= i < j < |ts| ==> ts[i].id != ts[j].id)
      && (forall d :: d in ts <==> d in ds && d.id != -1 && d.id != ds[own].id)
      && (forall i, u', d', k | 0 <= i < |ts| && At(t, u', d', k) && SocketAt(t, u', d', k) == ts[i].socket3 != -1
            :: u' == u && ds[d'] == ts[i] && k == T3)
  {
    var t := RunSessions(EmptyTable(), es);
    EmptyTableInv();
    RunKeepsInv(EmptyTable(), es);
    FreshRunKeepsDistinct(EmptyTable(), es);
    var ds := t[u].devices;
    var socket := SocketAt(t, u, own, channel);
    var ts := Targets(ds, ds[own].id, socket);
    TargetsAre(ds, ds[own].id, socket);
    forall d | d in ds && d.id != -1 && d.id != ds[own].id ensures d.socket2 != socket {
      var i :| 0 <= i < |ds| && ds[i] == d;
      assert At(t, u, i, T2) && SocketAt(t, u, i, T2) == d.socket2;
    }
    forall i, u', d', k | 0 <= i < |ts| && At(t, u', d', k) && SocketAt(t, u', d', k) == ts[i].socket3 != -1
      ensures u' == u && ds[d'] == ts[i] && k == T3
    {
      assert ts[i] in ts;
      var j :| 0 <= j < |ds| && ds[j] == ts[i];
      assert At(t, u, j, T3) && SocketAt(t, u, j, T3) == ts[i].socket3;
    }
  }
}
