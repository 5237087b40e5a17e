/** Stored files, and a backup server replaying the primary's messages over its own store. */
module Disk {
  import opened Limits
  import opened SessionTable
  import opened SessionRuns
  import opened Wire

  // ---------- paths ----------

  const ROOT := "./database"
  const DIR_BUFFER := 50

  function UserDir(user: string): string { ROOT + "/" + user }

  function StoredPath(user: string, file: string): string { UserDir(user) + "/" + file }

  /** The directory a path names its file in. */
  function DirOf(path: string): string {
    if path == "" then "" else if path[|path| - 1] == '/' then path[..|path| - 1] else DirOf(path[..|path| - 1])
  }

  lemma {:induction false} DirOfIs(dir: string, file: string)
    requires '/' !in file
    ensures DirOf(dir + "/" + file) == dir
  {
    var path := dir + "/" + file;
    if file == "" {
      assert path[..|path| - 1] == dir;
    } else {
      assert path[..|path| - 1] == dir + "/" + file[..|file| - 1];
      DirOfIs(dir, file[..|file| - 1]);
    }
  }

  /** Slash-free file names are stored apart for different users and different names. */
  lemma StoredPathInjective(user: string, file: string, user': string, file': string)
    requires '/' !in file && '/' !in file'
    requires StoredPath(user, file) == StoredPath(user', file')
    ensures user == user' && file == file'
  {
    DirOfIs(UserDir(user), file);
    DirOfIs(UserDir(user'), file');
    assert user == UserDir(user)[|"./database/"|..] && user' == UserDir(user')[|"./database/"|..];
    var n := |UserDir(user)| + 1;
    assert file == StoredPath(user, file)[n..] && file' == StoredPath(user', file')[n..];
  }

  // ---------- the store ----------

  datatype Disk = Disk(dirs: set<string>, files: map<string, string>)

  /** Opening a file for writing fails when its directory is not there. */
  function WriteFile(d: Disk, path: string, content: string): Disk {
    if DirOf(path) in d.dirs then d.(files := d.files[path := content]) else d
  }

  function RemoveFile(d: Disk, path: string): Disk { d.(files := d.files - {path}) }

  /** mkdir succeeds where the directory above is there; the root is there from the start. */
  predicate CanMake(dirs: set<string>, user: string) {
    var above := DirOf(UserDir(user));
    above == ROOT || above in dirs
  }

  /** createUserDirectory, which ignores whether mkdir succeeds. */
  function MakeDir(d: Disk, user: string): Disk {
    if CanMake(d.dirs, user) then d.(dirs := d.dirs + {UserDir(user)}) else d
  }

  /** The directory of a user with a slash-free name can always be made. */
  lemma PlainUserCanMake(dirs: set<string>, user: string)
    requires '/' !in user
    ensures CanMake(dirs, user)
  {
    DirOfIs(ROOT, user);
  }

  function Content(d: Disk, path: string): Option<string> {
    if path in d.files then Some(d.files[path]) else None
  }

  // ---------- messages to a backup ----------

  datatype Message =
    | InsertMsg(conn: Connection)
    | ExitMsg(user: string, device: int)
    | UploadMsg(path: string, payload: string)
    | DeleteMsg(path: string)

  /** A name in a directory, other than the two every directory has. */
  predicate EntryOk(name: string) { name != "" && name != "." && name != ".." && '/' !in name }

  /** What a user name must be for the directory to be made and its path to fit the buffer. */
  predicate UserOk(user: string) { EntryOk(user) && '\0' !in user && |UserDir(user)| < DIR_BUFFER }

  predicate ConnectionOk(c: Connection) {
    && UserOk(c.user)
    && c.device != -1 && IsInt(c.device) && IsInt(c.clientSocket) && 0 <= c.socketType < TWO_64
  }

  lemma UserIsNamed(c: Connection)
    requires ConnectionOk(c)
    ensures c.user != "" && c.device != -1
  {}

  /** A message fits the record it is sent in. */
  predicate MessageOk(m: Message) {
    match m
    case InsertMsg(c) => ConnectionOk(c)
    case ExitMsg(user, device) => UserOk(user) && device != -1 && IsInt(device)
    case UploadMsg(path, payload) => '\0' !in path && |path| < INFO && |payload| <= INT_MAX
    case DeleteMsg(path) => '\0' !in path && |path| < INFO
  }

  predicate IsFile(m: Message) { m.UploadMsg? || m.DeleteMsg? }

  function ApplyFile(d: Disk, m: Message): Disk
    requires IsFile(m)
  {
    match m
    case UploadMsg(path, payload) => WriteFile(d, path, payload)
    case DeleteMsg(path) => RemoveFile(d, path)
  }

  /** What a file message leaves at its path, when the directory is there. */
  function Effect(m: Message): Option<string>
    requires IsFile(m)
  {
    if m.UploadMsg? then Some(m.payload) else None
  }

  /** A server's own table and disk; up is false once it has dereferenced null. */
  datatype Store = Store(up: bool, table: Table, disk: Disk)

  function EmptyStore(): Store { Store(true, EmptyTable(), Disk({}, map[])) }

  function Apply(b: Store, m: Message): Store {
    if !b.up then b
    else match m
    case InsertMsg(c) =>
      var r := ReplayInsert(b.table, c);
      Store(r.Some?, if r.Some? then r.value else b.table, MakeDir(b.disk, c.user))
    case ExitMsg(user, device) => b.(table := ReplayExit(b.table, user, device))
    case _ => b.(disk := ApplyFile(b.disk, m))
  }

  /** A backup that joined before the first message, after the whole log. */
  function Replay(log: seq<Message>): Store {
    if log == [] then EmptyStore() else Apply(Replay(log[..|log| - 1]), log[|log| - 1])
  }

  lemma ReplayAppend(log: seq<Message>, m: Message)
    ensures Replay(log + [m]) == Apply(Replay(log), m)
  {
    assert (log + [m])[..|log|] == log;
  }

  /** A store working off messages, oldest first. */
  function Drain(b: Store, queue: seq<Message>): Store
    decreases |queue|
  {
    if queue == [] then b else Drain(Apply(b, queue[0]), queue[1..])
  }

  /** Working off what is left of a log completes its replay. */
  lemma {:induction false} DrainReplays(done: seq<Message>, queue: seq<Message>)
    ensures Drain(Replay(done), queue) == Replay(done + queue)
    decreases |queue|
  {
    if queue == [] {
      assert done + queue == done;
    } else {
      ReplayAppend(done, queue[0]);
      DrainReplays(done + [queue[0]], queue[1..]);
      assert done + queue == done + [queue[0]] + queue[1..];
    }
  }

  // ---------- the two classes of messages ----------

  function SessionPart(log: seq<Message>): seq<Message> {
    if log == [] then []
    else SessionPart(log[..|log| - 1]) + if IsFile(log[|log| - 1]) then [] else [log[|log| - 1]]
  }

  function FilePart(log: seq<Message>): seq<Message> {
    if log == [] then []
    else FilePart(log[..|log| - 1]) + if IsFile(log[|log| - 1]) then [log[|log| - 1]] else []
  }

  lemma PartsAppend(log: seq<Message>, m: Message)
    ensures SessionPart(log + [m]) == SessionPart(log) + if IsFile(m) then [] else [m]
    ensures FilePart(log + [m]) == FilePart(log) + if IsFile(m) then [m] else []
  {
    assert (log + [m])[..|log|] == log;
  }

  /** The directories that the logins in the log have made. */
  function DirsOf(log: seq<Message>): set<string> {
    if log == [] then {} else DirsWith(DirsOf(log[..|log| - 1]), log[|log| - 1])
  }

  function DirsWith(dirs: set<string>, m: Message): set<string> {
    if m.InsertMsg? && CanMake(dirs, m.conn.user) then dirs + {UserDir(m.conn.user)} else dirs
  }

  /** Every file message comes after a login of its user. */
  ghost predicate Causal(log: seq<Message>) {
    forall k :: 0 <= k < |log| && IsFile(log[k]) ==> DirOf(log[k].path) in DirsOf(log[..k])
  }

  lemma DirsAppend(log: seq<Message>, m: Message)
    ensures DirsOf(log + [m]) == DirsWith(DirsOf(log), m)
    ensures Causal(log) && (IsFile(m) ==> DirOf(m.path) in DirsOf(log)) ==> Causal(log + [m])
  {
    var log' := log + [m];
    assert log'[..|log|] == log;
    forall k | 0 <= k < |log| ensures log'[..k] == log[..k] {}
  }

  lemma ApplyTables(b: Store, b': Store, m: Message)
    requires b.up == b'.up && b.table == b'.table
    ensures IsFile(m) ==> Apply(b, m).up == b.up && Apply(b, m).table == b.table
    ensures Apply(b, m).up == Apply(b', m).up && Apply(b, m).table == Apply(b', m).table
  {}

  /** The replayed table depends on the session messages alone. */
  lemma {:induction false} ReplaySessions(log: seq<Message>)
    ensures Replay(log).up == Replay(SessionPart(log)).up
    ensures Replay(log).table == Replay(SessionPart(log)).table
  {
    if log != [] {
      var init, m := log[..|log| - 1], log[|log| - 1];
      ReplaySessions(init);
      ApplyTables(Replay(init), Replay(SessionPart(init)), m);
      assert Replay(log) == Apply(Replay(init), m);
      if IsFile(m) {
        assert SessionPart(log) == SessionPart(init);
      } else {
        assert SessionPart(log) == SessionPart(init) + [m];
        ReplayAppend(SessionPart(init), m);
      }
    }
  }

  /** A backup that is up has exactly the directories of the logins it has seen. */
  lemma {:induction false} ReplayDirs(log: seq<Message>)
    requires Replay(log).up
    ensures Replay(log).disk.dirs == DirsOf(log)
  {
    if log != [] { ReplayDirs(log[..|log| - 1]); }
  }

  /** A prefix of a log that replays without a fault does so too. */
  lemma {:induction false} ReplayPrefixUp(log: seq<Message>, k: nat)
    requires k <= |log| && Replay(log).up
    ensures Replay(log[..k]).up
  {
    if k == |log| {
      assert log[..k] == log;
    } else {
      ReplayPrefixUp(log[..|log| - 1], k);
      assert log[..|log| - 1][..k] == log[..k];
    }
  }
}
