/** What the client asks the server for when the user changes the directory, and that the server then has what the user
    has. */
module SyncRequests {
  import opened Limits
  import opened Wire
  import opened SyncClient

  predicate MarkerAt(name: string, k: nat) { k + 15 <= |name| && name[k..k + 15] == ".goutputstream-" }

  /** The name of a temporary file, which an editor moves away. */
  ghost predicate Marked(name: string) { exists k: nat :: MarkerAt(name, k) }

  /** The event calls for this request. */
  ghost predicate CallsFor(e: FsEvent, r: Request) {
    match r
    case SendUpload(name) => e.name == name && (e.kind.Written? || e.kind.MovedTo?)
    case SendDelete(name) => e.name == name && (e.kind.Deleted? || (e.kind.MovedFrom? && !Marked(name)))
  }

  predicate OccursAt(s: string, sub: string, k: nat) { k + |sub| <= |s| && s[k..k + |sub|] == sub }

  lemma {:induction false} ContainsExactly(s: string, sub: string)
    ensures Contains(s, sub) <==> exists k: nat :: OccursAt(s, sub, k)
  {
    if |s| >= |sub| {
      assert OccursAt(s, sub, 0) <==> s[..|sub|] == sub;
      if s != "" {
        ContainsExactly(s[1..], sub);
        forall k: nat ensures OccursAt(s[1..], sub, k) <==> OccursAt(s, sub, k + 1) { OccursLater(s, sub, k); }
        if k: nat :| OccursAt(s[1..], sub, k) { assert OccursAt(s, sub, k + 1); }
        if k: nat :| OccursAt(s, sub, k) { assert k > 0 ==> OccursAt(s[1..], sub, k - 1); }
      }
    }
  }

  lemma OccursLater(s: string, sub: string, k: nat)
    requires s != ""
    ensures OccursAt(s[1..], sub, k) <==> OccursAt(s, sub, k + 1)
  {
    if k + 1 + |sub| <= |s| { assert s[1..][k..k + |sub|] == s[k + 1..k + 1 + |sub|]; }
  }

  lemma ContainsMarker(name: string)
    ensures Contains(name, TEMPORARY) <==> Marked(name)
  {
    ContainsExactly(name, TEMPORARY);
    forall k: nat ensures MarkerAt(name, k) <==> OccursAt(name, TEMPORARY, k) { MarkerIs(name, k); }
    hide Contains, MarkerAt, OccursAt;
  }

  lemma MarkerIs(name: string, k: nat)
    ensures MarkerAt(name, k) <==> OccursAt(name, TEMPORARY, k)
  {}

  lemma RequestOf(e: FsEvent)
    ensures forall r :: Requests([e]) == [r] <==> CallsFor(e, r)
    ensures Requests([e]) == [] || |Requests([e])| == 1
  {
    ContainsMarker(e.name);
    assert [e][1..] == [];
    assert Requests([e]) == if Reaction(e).Some? then [Reaction(e).value] else [];
    hide Contains, Marked, Requests;
    forall r ensures Requests([e]) == [r] <==> CallsFor(e, r) {
      assert Requests([e]) == [r] <==> Reaction(e) == Some(r);
    }
  }

  /** The requests of a batch: one for each event that calls for one, that one, in the order of the events. */
  lemma {:induction false} RequestsExactly(es: seq<FsEvent>) returns (at: seq<nat>)
    ensures |at| == |Requests(es)| && forall i :: 0 <= i < |at| ==> at[i] < |es|
    ensures forall i, j :: 0 <= i < j < |at| ==> at[i] < at[j]
    ensures forall i :: 0 <= i < |at| ==> CallsFor(es[at[i]], Requests(es)[i])
    ensures forall x, r | 0 <= x < |es| && CallsFor(es[x], r) :: x in at
  {
    hide Requests, CallsFor;
    if es == [] {
      NoRequests();
      at := [];
    } else {
      var init, e := es[..|es| - 1], es[|es| - 1];
      var before := RequestsExactly(init);
      assert es == init + [e];
      RequestsConcat(init, [e]);
      RequestOf(e);
      at := before + if Requests([e]) == [] then [] else [|init|];
      if Requests([e]) != [] { assert Requests([e]) == [Requests([e])[0]]; }
    }
  }

  lemma NoRequests()
    ensures Requests([]) == []
  {}

  lemma {:induction false} PropagatedRequests(es: seq<FsEvent>)
    ensures Requests(Propagated(es)) == Requests(es)
  {
    hide Reaction;
    if es != [] {
      PropagatedRequests(es[1..]);
      var head := if Reaction(es[0]).Some? then [es[0]] else [];
      RequestsConcat(head, Propagated(es[1..]));
      assert [es[0]][1..] == [];
    }
  }

  // ---------- the server follows ----------

  function At(dir: Directory, name: string): Option<string> { if name in dir then Some(dir[name]) else None }

  /** The user's files on the server after a request; an upload opens the file, and sends nothing if it is not there. */
  function Serve(server: Directory, r: Request, dir: Directory): Directory {
    match r
    case SendUpload(name) => if name in dir then server[name := dir[name]] else server
    case SendDelete(name) => server - {name}
  }

  function ServeAll(server: Directory, rs: seq<Request>, dir: Directory): Directory {
    if rs == [] then server else Serve(ServeAll(server, rs[..|rs| - 1], dir), rs[|rs| - 1], dir)
  }

  /** What the server has under a name, against what the user has there when the changes are made. */
  predicate Follows(onServer: Option<string>, byUser: Option<string>, atBatch: Option<string>, touched: bool) {
    if touched then (byUser.None? ==> onServer.None?) && (byUser.Some? && atBatch.Some? ==> onServer == atBatch)
    else onServer == byUser
  }

  ghost predicate Touched(es: seq<Step>, name: string) {
    exists x :: 0 <= x < |es| && es[x].UserChange? && es[x].name == name
  }

  lemma {:induction false} ChangesFollow(s: State, es: seq<Step>, server: Directory, dir: Directory, name: string)
    requires UserChanges(es) && s.queue == [] && !Marked(name) && At(server, name) == At(s.directory, name)
    ensures
      var s1 := Run(s, es);
      Follows(At(ServeAll(server, Requests(s1.queue), dir), name), At(s1.directory, name), At(dir, name), Touched(es, name))
  {
    hide Requests, Marked, Changed, Serve, Follows;
    if es == [] {
      NoRequests();
      SameFollows(At(server, name), At(dir, name));
    } else {
      var init, e := es[..|es| - 1], es[|es| - 1];
      ChangesFollow(s, init, server, dir, name);
      var s1, event := Run(s, init), FsEvent(e.kind, e.name, false);
      RequestsConcat(s1.queue, [event]);
      assert Touched(es, name) <==> Touched(init, name) || e.name == name by { TouchedNext(es, name); }
      var served := ServeAll(server, Requests(s1.queue), dir);
      OneFollows(served, s1.directory, dir, e.kind, e.name, e.content, name, Touched(init, name));
      ServeMore(server, Requests(s1.queue), Requests([event]), dir);
    }
  }

  lemma SameFollows(v: Option<string>, d: Option<string>)
    ensures Follows(v, v, d, false)
  {}

  lemma TouchedNext(es: seq<Step>, name: string)
    requires UserChanges(es) && es != []
    ensures Touched(es, name) <==> Touched(es[..|es| - 1], name) || es[|es| - 1].name == name
  {
    assert forall x :: 0 <= x < |es| - 1 ==> es[x] == es[..|es| - 1][x];
    assert es[|es| - 1].UserChange?;
  }

  lemma ServeMore(server: Directory, rs: seq<Request>, more: seq<Request>, dir: Directory)
    requires more == [] || |more| == 1
    ensures
      ServeAll(server, rs + more, dir) ==
      if more == [] then ServeAll(server, rs, dir) else Serve(ServeAll(server, rs, dir), more[0], dir)
  {
    if more == [] { assert rs + more == rs; } else { assert (rs + more)[..|rs|] == rs; }
  }

  /** One change of the user and what it makes the client ask for. */
  lemma OneFollows(server: Directory, user: Directory, dir: Directory, kind: Kind, changed: string, content: string, name: string,
                   touched: bool)
    requires Follows(At(server, name), At(user, name), At(dir, name), touched) && !Marked(name)
    ensures
      var rs := Requests([FsEvent(kind, changed, false)]);
      && (rs == [] || |rs| == 1)
      && var server' := if rs == [] then server else Serve(server, rs[0], dir);
         Follows(At(server', name), At(Changed(user, kind, changed, content), name), At(dir, name), touched || changed == name)
  {
    var e := FsEvent(kind, changed, false);
    RequestOf(e);
    var r := if kind.Written? || kind.MovedTo? then SendUpload(changed) else SendDelete(changed);
    assert CallsFor(e, SendUpload(changed)) <==> kind.Written? || kind.MovedTo?;
    assert CallsFor(e, SendDelete(changed)) <==> kind.Deleted? || (kind.MovedFrom? && !Marked(changed));
    var rs := Requests([e]);
    assert rs != [] ==> rs == [rs[0]] && CallsFor(e, rs[0]);
    assert CallsFor(e, r) ==> rs == [r];
    hide Requests, Marked;
  }

  /** Whatever the user does between two batches, with the flag down: the requests of the next batch make the server have
      exactly what the user has, under every name without the marker under which the two agreed before. */
  lemma ServerFollows(s: State, es: seq<Step>, server: Directory, name: string)
    requires UserChanges(es) && s.queue == [] && !s.flag
    requires !Marked(name) && At(server, name) == At(s.directory, name)
    ensures
      var s' := Run(s, es + [Batch]);
      && |s.propagated| <= |s'.propagated|
      && var asked := Requests(s'.propagated[|s.propagated|..]);
         At(ServeAll(server, asked, s'.directory), name) == At(s'.directory, name)
  {
    var s1, s' := Run(s, es), Run(s, es + [Batch]);
    ChangesPileUp(s, es);
    RunAppend(s, es, Batch);
    assert s' == Next(s1, Batch);
    ChangesFollow(s, es, server, s'.directory, name);
    PropagatedRequests(s1.queue);
    NoRequests();
    assert s'.propagated[|s.propagated|..] == Propagated(s1.queue) || (s1.queue == [] && s'.propagated == s.propagated);
    hide Requests, Marked, Propagated, ServeAll, Run;
  }

  /** If a change that the server caused were asked for, it would be the change itself. */
  lemma EchoIsTheCommand(dir: Directory, c: string, name: string)
    ensures Requests(CausedBy(dir, Put(name, c))) == [SendUpload(name)]
    ensures Requests(CausedBy(dir, Remove(name))) == if name in dir then [SendDelete(name)] else []
  {
    RequestOf(FsEvent(Written, name, true));
    RequestOf(FsEvent(Deleted, name, true));
    assert CallsFor(FsEvent(Written, name, true), SendUpload(name)) && CallsFor(FsEvent(Deleted, name, true), SendDelete(name));
    NoRequests();
    hide Requests;
  }
}
