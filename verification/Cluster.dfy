/** The primary with its threads, its two locks and its backups, as a system of atomic steps.
    A thread's step ends at its next blocking call, write or lock operation. */
module Cluster {
  import opened Limits
  import opened SessionTable
  import opened SessionMap
  import opened Fanout
  import opened Wire
  import opened Disk

  /** What the terminal or inotify thread of a connection knows about it. */
  datatype Session = Session(user: string, device: int, socket: int)

  datatype Backup = Backup(id: int, log: seq<Message>, applied: nat, store: Store)

  /** Where a thread of the primary is. Frame is the upload or delete it is carrying out.
      Broadcast is the loop over the backups, at this slot; after it the thread goes on as next. */
  datatype Thread =
    | LoginWait(conn: Connection, socket: int)
    | LoginDir(conn: Connection, socket: int)
    | Stuck
    | Idle(sess: Session)
    | ExitWait(sess: Session)
    | FileWrite(sess: Session, frame: Frame)
    | NotifyWait(sess: Session, frame: Frame)
    | Notify(sess: Session, frame: Frame, todo: seq<(int, string)>)
    | BackupWait(sess: Session, frame: Frame)
    | Broadcast(message: Message, slot: nat, next: Thread)
    | Done

  /** The histories (frames, sessionLog, fileLog) record what was committed under which lock, in lock order. */
  datatype State = State(
    alive: bool,
    refusalReleases: bool,
    table: Table,
    disk: Disk,
    userLock: Option<nat>,
    serverLock: Option<nat>,
    threads: map<nat, Thread>,
    backups: seq<Backup>,
    wires: map<int, string>,
    frames: map<int, seq<Frame>>,
    sessionLog: seq<Message>,
    fileLog: seq<Message>)

  datatype Event =
    | Connect(tid: nat, conn: Connection, socket: int)
    | Command(tid: nat, frame: Frame)
    | Quit(tid: nat)
    | Go(tid: nat)
    | ApplyNext(slot: nat)
    | Crash

  function MessageOf(sess: Session, f: Frame): Message {
    var path := StoredPath(sess.user, f.name);
    if f.command == UPLOAD then UploadMsg(path, f.payload) else DeleteMsg(path)
  }

  /** The writes of a frame on one descriptor. */
  function WritesTo(socket: int, ws: seq<string>): seq<(int, string)> {
    if ws == [] then [] else [(socket, ws[0])] + WritesTo(socket, ws[1..])
  }

  /** Everything a notification writes, device by device; a descriptor of -1 takes nothing. */
  function Todo(ts: seq<Device>, f: Frame): seq<(int, string)> {
    if ts == [] then []
    else (if ts[0].socket3 == -1 then [] else WritesTo(ts[0].socket3, Writes(f))) + Todo(ts[1..], f)
  }

  function AddFrames(frames: map<int, seq<Frame>>, ts: seq<Device>, f: Frame): map<int, seq<Frame>>
    decreases |ts|
  {
    if ts == [] then frames
    else
      var n := ts[0].socket3;
      AddFrames(if n == -1 then frames else frames[n := Get(frames, n, []) + [f]], ts[1..], f)
  }

  // ---------- steps of a thread, by where it is ----------

  function AfterLogin(s: State, tid: nat, c: Connection, socket: int, table: Table, outcome: Outcome): State {
    match outcome
    case Accepted =>
      s.(threads := s.threads[tid := Broadcast(InsertMsg(c), 0, LoginDir(c, socket))],
         table := table, userLock := Some(tid), sessionLog := s.sessionLog + [InsertMsg(c)],
         wires := s.wires[socket := ""], frames := s.frames[socket := []])
    case Refused(_) =>
      // pthread_exit between sem_wait and sem_post
      s.(threads := s.threads[tid := if s.refusalReleases then Done else Stuck],
         table := table, userLock := if s.refusalReleases then None else Some(tid))
    case Silent => s.(threads := s.threads[tid := LoginDir(c, socket)], table := table)
    case Fault => s.(alive := false)
  }

  function StepLoginWait(s: State, tid: nat, c: Connection, socket: int): State {
    var (table, outcome) := Login(s.table, c, socket);
    AfterLogin(s, tid, c, socket, table, outcome)
  }

  function StepLoginDir(s: State, tid: nat, c: Connection, socket: int): State {
    var next := if c.socketType == T1 || c.socketType == T2 then Idle(Session(c.user, c.device, socket)) else Done;
    s.(threads := s.threads[tid := next], disk := MakeDir(s.disk, c.user))
  }

  function AfterExit(s: State, tid: nat, sess: Session, result: Option<Table>): State {
    var m := ExitMsg(sess.user, sess.device);
    if result.None? then s.(alive := false)
    else
      s.(threads := s.threads[tid := Broadcast(m, 0, Done)],
         table := result.value, userLock := Some(tid), sessionLog := s.sessionLog + [m])
  }

  function StepExitWait(s: State, tid: nat, sess: Session): State {
    AfterExit(s, tid, sess, Exit(s.table, sess.user, sess.device))
  }

  function StepFileWrite(s: State, tid: nat, sess: Session, f: Frame): State {
    s.(threads := s.threads[tid := NotifyWait(sess, f)], disk := ApplyFile(s.disk, MessageOf(sess, f)))
  }

  function StepNotifyWait(s: State, tid: nat, sess: Session, f: Frame): State {
    var u := UserAt(s.table, sess.user);
    if u == |s.table| then s.(alive := false)
    else
      var ts := Targets(s.table[u].devices, sess.device, sess.socket);
      s.(threads := s.threads[tid := Notify(sess, f, Todo(ts, f))],
         userLock := Some(tid), frames := AddFrames(s.frames, ts, f))
  }

  function StepNotify(s: State, tid: nat, sess: Session, f: Frame, todo: seq<(int, string)>): State {
    if todo == [] then s.(threads := s.threads[tid := BackupWait(sess, f)], userLock := None)
    else
      var n := todo[0].0;
      s.(threads := s.threads[tid := Notify(sess, f, todo[1..])],
         wires := s.wires[n := Get(s.wires, n, "") + todo[0].1])
  }

  function StepBackupWait(s: State, tid: nat, sess: Session, f: Frame): State {
    var m := MessageOf(sess, f);
    s.(threads := s.threads[tid := Broadcast(m, 0, Idle(sess))],
       serverLock := Some(tid), fileLog := s.fileLog + [m])
  }

  /** One round of the loop over the backups, or leaving it and releasing the lock it ran under. A round is one step
      here, the last write of the message to the slot; BackupStreams has the writes before it. */
  function StepBroadcast(s: State, tid: nat, m: Message, k: nat, next: Thread): State {
    if k < |s.backups| then
      s.(threads := s.threads[tid := Broadcast(m, k + 1, next)],
         backups := s.backups[k := s.backups[k].(log := s.backups[k].log + [m])])
    else if IsFile(m) then s.(threads := s.threads[tid := next], serverLock := None)
    else s.(threads := s.threads[tid := next], userLock := None)
  }

  function StepThread(s: State, tid: nat): State
    requires tid in s.threads
  {
    match s.threads[tid]
    case LoginWait(c, socket) => if s.userLock.None? then StepLoginWait(s, tid, c, socket) else s
    case LoginDir(c, socket) => StepLoginDir(s, tid, c, socket)
    case ExitWait(sess) => if s.userLock.None? then StepExitWait(s, tid, sess) else s
    case FileWrite(sess, f) => StepFileWrite(s, tid, sess, f)
    case NotifyWait(sess, f) => if s.userLock.None? then StepNotifyWait(s, tid, sess, f) else s
    case Notify(sess, f, todo) => StepNotify(s, tid, sess, f, todo)
    case BackupWait(sess, f) => if s.serverLock.None? then StepBackupWait(s, tid, sess, f) else s
    case Broadcast(m, k, next) => StepBroadcast(s, tid, m, k, next)
    case _ => s
  }

  function Move(s: State, tid: nat, t: Thread): State { s.(threads := s.threads[tid := t]) }

  function StepApply(s: State, i: nat): State
    requires i < |s.backups| && s.backups[i].applied < |s.backups[i].log|
  {
    var b := s.backups[i];
    s.(backups := s.backups[i := b.(applied := b.applied + 1, store := Apply(b.store, b.log[b.applied]))])
  }

  /** One event; an event that is not enabled changes nothing. Backups go on after the primary has died. */
  function Step(s: State, e: Event): State {
    match e
    case ApplyNext(i) => if i < |s.backups| && s.backups[i].applied < |s.backups[i].log| then StepApply(s, i) else s
    case Crash => s.(alive := false)
    case Connect(tid, c, socket) => if s.alive && tid !in s.threads then Move(s, tid, LoginWait(c, socket)) else s
    case Command(tid, f) => if IsIdle(s, tid) then Move(s, tid, FileWrite(s.threads[tid].sess, f)) else s
    case Quit(tid) => if IsIdle(s, tid) then Move(s, tid, ExitWait(s.threads[tid].sess)) else s
    case Go(tid) => if s.alive && tid in s.threads then StepThread(s, tid) else s
  }

  predicate IsIdle(s: State, tid: nat) { s.alive && tid in s.threads && s.threads[tid].Idle? }

  function Run(s: State, es: seq<Event>): State {
    if es == [] then s else Step(Run(s, es[..|es| - 1]), es[|es| - 1])
  }

  /** What the clients may send: user and file names that are entries of a directory, real device ids, and stored
      paths that fit the buffers they are copied into. */
  ghost predicate Legal(s: State, e: Event) {
    match e
    case Connect(_, c, _) => ConnectionOk(c)
    case Command(tid, f) => FrameOk(f) && EntryOk(f.name) && (IsIdle(s, tid) ==> PathFits(s.threads[tid].sess, f))
    case _ => true
  }

  predicate PathFits(sess: Session, f: Frame) { |StoredPath(sess.user, f.name)| < INFO }

  /** Every event of the run is legal where it happens. */
  ghost predicate AllLegal(s: State, es: seq<Event>) {
    es == [] || (AllLegal(s, es[..|es| - 1]) && Legal(Run(s, es[..|es| - 1]), es[|es| - 1]))
  }

  /** The primary at start, with the backups that have joined so far. */
  function Start(ids: seq<int>, refusalReleases: bool): State {
    State(true, refusalReleases, EmptyTable(), Disk({}, map[]), None, None, map[],
          seq(|ids|, i requires 0 <= i < |ids| => Backup(ids[i], [], 0, EmptyStore())),
          map[], map[], [], [])
  }

  /** A thread's step moves that thread and no other. */
  lemma OneThreadMoves(s: State, tid: nat)
    requires tid in s.threads
    ensures tid in StepThread(s, tid).threads
    ensures StepThread(s, tid).threads == s.threads[tid := StepThread(s, tid).threads[tid]]
  {
    hide Login, Exit, Targets, Todo, AddFrames, UserAt, MessageOf, ApplyFile, MakeDir, Get, IsFile, AfterLogin, AfterExit;
    match s.threads[tid]
    case LoginWait(c, socket) =>
      var r := Login(s.table, c, socket);
      LoginMoves(s, tid, c, socket, r.0, r.1);
    case ExitWait(sess) => ExitMoves(s, tid, sess, Exit(s.table, sess.user, sess.device));
    case NotifyWait(sess, f) => hide StepLoginDir, StepNotify, StepBroadcast, StepBackupWait, StepFileWrite;
    case Notify(sess, f, todo) => hide StepLoginDir, StepNotifyWait, StepBroadcast, StepBackupWait, StepFileWrite;
    case Broadcast(m, k, next) => hide StepLoginDir, StepNotifyWait, StepNotify, StepBackupWait, StepFileWrite;
    case _ =>
  }

  lemma LoginMoves(s: State, tid: nat, c: Connection, socket: int, table: Table, outcome: Outcome)
    requires tid in s.threads
    ensures
      var s' := AfterLogin(s, tid, c, socket, table, outcome);
      tid in s'.threads && s'.threads == s.threads[tid := s'.threads[tid]]
  {}

  lemma ExitMoves(s: State, tid: nat, sess: Session, result: Option<Table>)
    requires tid in s.threads
    ensures
      var s' := AfterExit(s, tid, sess, result);
      tid in s'.threads && s'.threads == s.threads[tid := s'.threads[tid]]
  {}
}
