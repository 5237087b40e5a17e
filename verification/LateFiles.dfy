/** Which files a backup has, whenever it joined: an upload is written only where a login has made the directory. */
module LateFiles {
  import opened Limits
  import opened Disk

  ghost predicate AllMessagesOk(log: seq<Message>) { forall k :: 0 <= k < |log| ==> MessageOk(log[k]) }

  /** A user with this directory has logged in. */
  ghost predicate LoginSeen(log: seq<Message>, dir: string) {
    exists j :: 0 <= j < |log| && log[j].InsertMsg? && UserDir(log[j].conn.user) == dir
  }

  /** The k-th message says what is at the path from then on: a delete, or an upload into a directory that is there. */
  ghost predicate Settles(log: seq<Message>, path: string, k: nat) {
    && k < |log| && IsFile(log[k]) && log[k].path == path
    && (log[k].UploadMsg? ==> LoginSeen(log[..k], DirOf(path)))
  }

  ghost predicate SettledBy(log: seq<Message>, path: string, k: nat) {
    Settles(log, path, k) && forall j: nat :: k < j < |log| ==> !Settles(log, path, j)
  }

  lemma {:induction false} DirsAreLogins(log: seq<Message>, dir: string)
    requires AllMessagesOk(log)
    ensures dir in DirsOf(log) <==> LoginSeen(log, dir)
  {
    if log != [] {
      var init, n := log[..|log| - 1], |log| - 1;
      assert forall k :: 0 <= k < n ==> init[k] == log[k];
      DirsAreLogins(init, dir);
      assert MessageOk(log[n]);
      if log[n].InsertMsg? { PlainUserCanMake(DirsOf(init), log[n].conn.user); }
      hide CanMake, UserDir;
    }
  }

  lemma SettlesBefore(log: seq<Message>, path: string, k: nat)
    requires k + 1 < |log|
    ensures Settles(log, path, k) <==> Settles(log[..|log| - 1], path, k)
  {
    hide LoginSeen, DirOf;
    assert log[..|log| - 1][..k] == log[..k] && log[..|log| - 1][k] == log[k];
  }

  lemma SettledNext(log: seq<Message>, path: string, k: nat)
    requires log != []
    ensures
      var n := |log| - 1;
      SettledBy(log, path, k) <==>
      if Settles(log, path, n) then k == n else k < n && SettledBy(log[..n], path, k)
  {
    hide Settles;
    var init, n: nat := log[..|log| - 1], |log| - 1;
    forall j: nat | j < n ensures Settles(log, path, j) <==> Settles(init, path, j) { SettlesBefore(log, path, j); }
    if Settles(log, path, k) { SettlesInside(log, path, k); }
    if SettledBy(log, path, k) && k < n {
      forall j: nat | k < j < n ensures !Settles(init, path, j) { assert !Settles(log, path, j); }
    }
    if k < n && SettledBy(init, path, k) && !Settles(log, path, n) {
      forall j: nat | k < j < |log| ensures !Settles(log, path, j) { if j < n { assert !Settles(init, path, j); } }
    }
  }

  lemma SettlesInside(log: seq<Message>, path: string, k: nat)
    requires Settles(log, path, k)
    ensures k < |log|
  {}

  ghost predicate UploadedBy(log: seq<Message>, path: string, content: string) {
    exists k: nat :: SettledBy(log, path, k) && Uploads(log, content, k)
  }

  predicate Uploads(log: seq<Message>, content: string, k: nat) { k < |log| && log[k].UploadMsg? && log[k].payload == content }

  lemma UploadedNext(log: seq<Message>, path: string, content: string)
    requires log != []
    ensures
      var n := |log| - 1;
      UploadedBy(log, path, content) <==>
      if Settles(log, path, n) then Uploads(log, content, n) else UploadedBy(log[..n], path, content)
  {
    hide Settles, SettledBy;
    var n: nat := |log| - 1;
    forall k: nat
      ensures SettledBy(log, path, k) <==> if Settles(log, path, n) then k == n else k < n && SettledBy(log[..n], path, k)
    {
      SettledNext(log, path, k);
    }
    assert forall k: nat :: k < n ==> Uploads(log, content, k) == Uploads(log[..n], content, k);
  }

  /** A backup that starts empty, whenever, and receives these messages without a fault has a content at a path if and only
      if the last message that settles the path is an upload of it. */
  lemma {:induction false} ReplayedExactly(log: seq<Message>, path: string, content: string)
    requires AllMessagesOk(log) && Replay(log).up
    ensures Content(Replay(log).disk, path) == Some(content) <==> UploadedBy(log, path, content)
  {
    hide UploadedBy, MessageOk, DirsOf, DirOf, MakeDir;
    if log == [] {
      NothingUploaded(path, content);
    } else {
      var n: nat := |log| - 1;
      var init := log[..n];
      assert forall k :: 0 <= k < n ==> init[k] == log[k];
      assert Replay(log) == Apply(Replay(init), log[n]);
      ReplayedExactly(init, path, content);
      UploadedNext(log, path, content);
      ReplayDirs(init);
      DirsAreLogins(init, DirOf(path));
      OneMessage(Replay(init), log, path, content);
      hide Replay, Apply, Settles;
    }
  }

  lemma NothingUploaded(path: string, content: string)
    ensures !UploadedBy([], path, content) && Content(Replay([]).disk, path) == None
  {}

  lemma OneMessage(b: Store, log: seq<Message>, path: string, content: string)
    requires log != [] && b.up
    requires DirOf(path) in b.disk.dirs <==> LoginSeen(log[..|log| - 1], DirOf(path))
    ensures
      var n := |log| - 1;
      Content(Apply(b, log[n]).disk, path) == Some(content) <==>
      if Settles(log, path, n) then Uploads(log, content, n) else Content(b.disk, path) == Some(content)
  {
    hide LoginSeen, DirOf;
  }
}
