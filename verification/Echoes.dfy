/** Exactly which schedules of the client's two threads send the server one of its own changes. */
module Echoes {
  import opened SyncClient

  /** The flag of the command raised at i is lowered by the batch at b, and the command is not applied yet. */
  ghost predicate FlagLost(s: State, es: seq<Step>, i: nat, b: nat) {
    && i < b < |es|
    && es[i].RaiseFlag? && Run(s, es[..i]).pending.None?
    && es[b].Batch? && Run(s, es[..b]).queue != []
    && forall x :: i < x < |es| ==> !es[x].ApplyCommand?
  }

  /** The command whose flag was lost is applied at a and causes an event, and since then no flag was raised and no batch
      was taken. */
  ghost predicate Exposed(s: State, es: seq<Step>, i: nat, b: nat, a: nat) {
    && i < b < a < |es| && FlagLost(s, es[..a], i, b)
    && es[a].ApplyCommand? && CausedBy(Run(s, es[..a]).directory, es[i].command) != []
    && forall x :: a < x < |es| ==> !es[x].RaiseFlag? && !es[x].Batch?
  }

  /** The batch at c finds such an event. */
  ghost predicate EchoAt(s: State, es: seq<Step>, c: nat) {
    c < |es| && es[c].Batch? && exists i, b, a :: Exposed(s, es[..c], i, b, a)
  }

  /** The command being received was raised at i. */
  ghost predicate RaisedAt(s: State, es: seq<Step>, i: nat) {
    && i < |es| && es[i].RaiseFlag? && Run(s, es[..i]).pending.None?
    && forall x :: i < x < |es| ==> !es[x].ApplyCommand?
  }

  // ---------- from the schedule to the state ----------

  lemma Longer<T>(es: seq<T>, n: nat)
    requires n < |es|
    ensures es[..n] == es[..|es| - 1][..n] && (n < |es| - 1 ==> es[n] == es[..|es| - 1][n])
  {}

  lemma {:induction false} RaisedIsPending(s: State, es: seq<Step>, i: nat)
    requires RaisedAt(s, es, i)
    ensures Run(s, es).pending.Some? && Run(s, es).pending.value == es[i].command
  {
    var init := es[..|es| - 1];
    Longer(es, i);
    if i < |es| - 1 {
      assert forall x :: i < x < |init| ==> init[x] == es[x];
      RaisedIsPending(s, init, i);
    }
  }

  lemma {:induction false} LostFlagIsDown(s: State, es: seq<Step>, i: nat, b: nat)
    requires FlagLost(s, es, i, b)
    ensures Run(s, es).pending.Some? && Run(s, es).pending.value == es[i].command && !Run(s, es).flag
  {
    var init := es[..|es| - 1];
    Longer(es, i);
    Longer(es, b);
    assert forall x :: i < x < |init| ==> init[x] == es[x];
    assert RaisedAt(s, init, i);
    RaisedIsPending(s, init, i);
    if b < |es| - 1 { LostFlagIsDown(s, init, i, b); }
  }

  lemma {:induction false} ExposedIsQueued(s: State, es: seq<Step>, i: nat, b: nat, a: nat)
    requires Exposed(s, es, i, b, a)
    ensures !Run(s, es).flag && !ByUser(Run(s, es).queue) && Run(s, es).pending.None?
  {
    var init := es[..|es| - 1];
    Longer(es, i);
    Longer(es, a);
    if a == |es| - 1 {
      LostFlagIsDown(s, init, i, b);
      var before := Run(s, init);
      var caused := CausedBy(before.directory, es[i].command);
      assert (before.queue + caused)[|before.queue|] == caused[0];
    } else {
      assert forall x :: a < x < |init| ==> init[x] == es[x];
      ExposedIsQueued(s, init, i, b, a);
      var queue := Run(s, init).queue;
      var x :| 0 <= x < |queue| && queue[x].byServer;
      assert Run(s, es).queue[x] == queue[x];
    }
  }

  // ---------- from the state to the schedule ----------

  lemma {:induction false} PendingWasRaised(s: State, es: seq<Step>) returns (i: nat)
    requires s.pending.None? && Run(s, es).pending.Some?
    ensures RaisedAt(s, es, i) && Run(s, es).pending.value == es[i].command
  {
    var init := es[..|es| - 1];
    if Run(s, init).pending.Some? {
      i := PendingWasRaised(s, init);
      Longer(es, i);
    } else {
      i := |es| - 1;
    }
  }

  lemma RunNext(s: State, es: seq<Step>)
    ensures if es == [] then Run(s, es) == s else Run(s, es) == Next(Run(s, es[..|es| - 1]), es[|es| - 1])
  {}

  lemma {:induction false} DownWasLost(s: State, es: seq<Step>) returns (i: nat, b: nat)
    requires s.pending.None? && Run(s, es).pending.Some? && !Run(s, es).flag
    ensures FlagLost(s, es, i, b) && Run(s, es).pending.value == es[i].command
  {
    hide *;
    RunNext(s, es);
    var init := es[..|es| - 1];
    var before, e := Run(s, init), es[|es| - 1];
    KeptOrLowered(before, e);
    if before.pending.Some? && !before.flag {
      i, b := DownWasLost(s, init);
      StillLost(s, es, i, b);
    } else {
      i := PendingWasRaised(s, init);
      b := |es| - 1;
      NowLost(s, es, i);
    }
  }

  lemma KeptOrLowered(s: State, e: Step)
    requires Next(s, e).pending.Some? && !Next(s, e).flag
    ensures s.pending == Next(s, e).pending && !e.ApplyCommand? && (s.flag ==> e.Batch? && s.queue != [])
  {}

  lemma StillLost(s: State, es: seq<Step>, i: nat, b: nat)
    requires es != [] && FlagLost(s, es[..|es| - 1], i, b) && !es[|es| - 1].ApplyCommand?
    ensures FlagLost(s, es, i, b) && es[..|es| - 1][i] == es[i]
  {
    Longer(es, i);
    Longer(es, b);
    assert forall x :: i < x < |es| - 1 ==> es[x] == es[..|es| - 1][x];
    hide Run;
  }

  lemma NowLost(s: State, es: seq<Step>, i: nat)
    requires es != [] && RaisedAt(s, es[..|es| - 1], i)
    requires es[|es| - 1].Batch? && Run(s, es[..|es| - 1]).queue != []
    ensures FlagLost(s, es, i, |es| - 1) && es[..|es| - 1][i] == es[i]
  {
    Longer(es, i);
    assert forall x :: i < x < |es| - 1 ==> es[x] == es[..|es| - 1][x];
    hide Run;
  }

  /** While a command is received with the flag down, the queue is the user's; what the server causes is propagated. */
  ghost predicate QueueInv(s: State) {
    && (s.pending.Some? && !s.flag ==> ByUser(s.queue))
    && forall x :: 0 <= x < |s.queue| && s.queue[x].byServer ==> Reaction(s.queue[x]).Some?
  }

  lemma NextKeepsQueue(s: State, e: Step)
    requires QueueInv(s)
    ensures QueueInv(Next(s, e))
  {}

  lemma {:induction false} RunKeepsQueue(s: State, es: seq<Step>)
    requires QueueInv(s)
    ensures QueueInv(Run(s, es))
  {
    hide QueueInv, Next;
    if es != [] {
      RunKeepsQueue(s, es[..|es| - 1]);
      NextKeepsQueue(Run(s, es[..|es| - 1]), es[|es| - 1]);
    }
  }

  lemma {:induction false} QueuedWasExposed(s: State, es: seq<Step>) returns (i: nat, b: nat, a: nat)
    requires s.pending.None? && ByUser(s.queue) && QueueInv(s)
    requires !Run(s, es).flag && !ByUser(Run(s, es).queue)
    ensures Exposed(s, es, i, b, a)
  {
    hide *;
    RunNext(s, es);
    var init := es[..|es| - 1];
    var before, e := Run(s, init), es[|es| - 1];
    RunKeepsQueue(s, init);
    if !before.flag && !ByUser(before.queue) {
      i, b, a := QueuedWasExposed(s, init);
      NotTaken(before, e);
      StillExposed(s, es, i, b, a);
    } else {
      AddedByServer(before, e);
      a := |es| - 1;
      i, b := DownWasLost(s, init);
      NowExposed(s, es, i, b);
    }
  }

  lemma NotTaken(s: State, e: Step)
    requires QueueInv(s) && !s.flag && !ByUser(s.queue) && !Next(s, e).flag && !ByUser(Next(s, e).queue)
    ensures !e.RaiseFlag? && !e.Batch?
  {}

  lemma StillExposed(s: State, es: seq<Step>, i: nat, b: nat, a: nat)
    requires es != [] && Exposed(s, es[..|es| - 1], i, b, a) && !es[|es| - 1].RaiseFlag? && !es[|es| - 1].Batch?
    ensures Exposed(s, es, i, b, a)
  {
    Longer(es, a);
    Longer(es, i);
    assert forall x :: a < x < |es| - 1 ==> es[x] == es[..|es| - 1][x];
    hide Run, FlagLost, CausedBy;
  }

  lemma NowExposed(s: State, es: seq<Step>, i: nat, b: nat)
    requires es != [] && FlagLost(s, es[..|es| - 1], i, b) && es[|es| - 1].ApplyCommand?
    requires
      var before := Run(s, es[..|es| - 1]);
      before.pending.Some? && before.pending.value == es[..|es| - 1][i].command
      && CausedBy(before.directory, before.pending.value) != []
    ensures Exposed(s, es, i, b, |es| - 1)
  {
    hide Run, CausedBy;
  }

  /** Only an application adds the server's events to a queue without them. */
  lemma AddedByServer(s: State, e: Step)
    requires s.flag || ByUser(s.queue)
    requires !Next(s, e).flag && !ByUser(Next(s, e).queue)
    ensures e.ApplyCommand? && s.pending.Some? && !s.flag && CausedBy(s.directory, s.pending.value) != [] {}

  // ---------- the batches ----------

  lemma {:induction false} ServersArePropagated(es: seq<FsEvent>)
    requires forall x :: 0 <= x < |es| && es[x].byServer ==> Reaction(es[x]).Some?
    ensures ByUser(Propagated(es)) <==> ByUser(es)
  {
    if es != [] {
      ServersArePropagated(es[1..]);
      ByUserConcat([es[0]], es[1..]);
      assert es == [es[0]] + es[1..];
      var head := if Reaction(es[0]).Some? then [es[0]] else [];
      ByUserConcat(head, Propagated(es[1..]));
    }
  }

  lemma ByUserConcat(a: seq<FsEvent>, b: seq<FsEvent>)
    ensures ByUser(a + b) <==> ByUser(a) && ByUser(b)
  {
    assert forall x :: 0 <= x < |a| ==> (a + b)[x] == a[x];
    assert forall x :: 0 <= x < |b| ==> (a + b)[|a| + x] == b[x];
  }

  /** The batch that sends the server one of its own changes. */
  lemma BatchEchoes(s: State, e: Step)
    requires QueueInv(s)
    ensures ByUser(Next(s, e).propagated) <==> ByUser(s.propagated) && (e.Batch? && !s.flag ==> ByUser(s.queue))
  {
    if e.Batch? && !s.flag {
      ServersArePropagated(s.queue);
      ByUserConcat(s.propagated, Propagated(s.queue));
    } else {
      assert s.propagated + [] == s.propagated;
    }
  }

  /** For every schedule: the server is sent one of its own changes if and only if some batch finds an event caused by a
      command whose flag a batch had lowered between its raising and its application, no flag having been raised since. */
  lemma {:induction false} EchoesExactly(directory: Directory, es: seq<Step>)
    ensures !ByUser(Run(Start(directory), es).propagated) <==> exists c :: EchoAt(Start(directory), es, c)
  {
    var s := Start(directory);
    if es != [] {
      var init, e, n := es[..|es| - 1], es[|es| - 1], |es| - 1;
      var before := Run(s, init);
      EchoesExactly(directory, init);
      RunKeepsQueue(s, init);
      BatchEchoes(before, e);
      hide Run, Exposed, QueueInv, ByUser;
      forall c: nat | c < n ensures EchoAt(s, es, c) <==> EchoAt(s, init, c) { Longer(es, c); }
      LastEchoes(s, es);
    }
  }

  lemma LastEchoes(s: State, es: seq<Step>)
    requires es != [] && s.pending.None? && ByUser(s.queue) && QueueInv(s)
    ensures
      var n := |es| - 1;
      var before := Run(s, es[..n]);
      EchoAt(s, es, n) <==> es[n].Batch? && !before.flag && !ByUser(before.queue)
  {
    var n := |es| - 1;
    var before := Run(s, es[..n]);
    hide Run, QueueInv, ByUser;
    if es[n].Batch? && !before.flag && !ByUser(before.queue) {
      var i, b, a := QueuedWasExposed(s, es[..n]);
    }
    if i, b, a :| Exposed(s, es[..n], i, b, a) { ExposedIsQueued(s, es[..n], i, b, a); }
  }
}
