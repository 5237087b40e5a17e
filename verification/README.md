# Verification of the dropbox simulator

The program keeps a directory in step between the devices of a user. A primary server holds the table of
logged-in devices and the stored files, notifies a user's other devices of every upload and delete, and
forwards everything to backup servers, which replay it and elect a new primary when the first one dies.

The model has five parts. Each names the source's own routines and constants; `MAX_USERS`, `MAX_DEVICES`,
the number of backups and `BUFFER_SIZE` are symbolic and at least 1. A byte is a `char`.

- **Session table.** `SessionTable` says what each table routine does to the array of users, as a value, and
  gives login and exit a closed form. `SessionMap` relates every routine to a finite map from user to device to
  three sockets. `SessionRuns` is about whole runs of logins and exits, and about a backup replaying them.
  `Fanout` says which devices are notified. `SessionServer` holds the arrays themselves: its methods search and
  update them in place and are proved against the functions of `SessionTable`.
- **Cluster.** `Cluster` is a step system: threads of the primary with program counters, the two semaphores, the
  backups with their logs, the bytes on every notification socket. A step ends at the next write, lock operation or
  blocking read; only a message to a backup is one step here. `ClusterLocks`, `ClusterLogs`, `ClusterTables`,
  `ClusterCausal`, `ClusterFiles`, `ClusterWires` and `ClusterSockets` each prove one invariant for every step;
  `ClusterTheorems` draws the results for every run. `ClusterFailures`, `ClusterSurvival`, `LateBackups` and `LateFiles` show where
  they end and exactly when they do not, and `ClusterReached`, over `ClusterRuns`, gives runs from the start into those
  states. `ClusterHistory` ties every thread to the connection it was started for and the command it took; over it
  `ClusterStored` says what is stored, `ClusterNotified` whom a notification reaches and `ClusterDelivered` what a device's
  directory then holds, all in terms of what the clients did. `Disk` is the stored files and the replay of messages over them.
- **Backup streams.** `MessageBytes` gives the messages to a backup their bytes, junk in unfilled fields included, and
  the backup's loop that takes them off again. `BackupStreams` is the cluster once more with a byte stream to every
  backup: a message is written chunk by chunk, threads under different locks interleave at every chunk, and a backup
  has what its loop makes of the bytes. Every run of it goes through states of `Cluster`, whose logs are then the messages
  wholly written. `BackupTheorems` states replication, convergence and failover of the stores made from bytes, for every
  run in which no message crosses another one on a slot. `Crossings` is about the others: `CrossedBytes` has what the loop
  makes of a message in the middle of which another one was written, `BackupRuns` the runs into such states.
- **Wire.** `Wire` is integers, chunks and frames as bytes, with the size field read as an `int`. `Channel` holds the
  do-while loops over buffers under an arbitrary schedule of short reads. `Handshake` is a connection with any list of
  uploads, client and server as two interleaved processes over two byte streams. `HandshakeOrder` has what holds as long as
  nothing is behind a name when it is read, `HandshakeAcks` where acks are, `HandshakeBreaks` the schedules that break an
  upload, `HandshakeDelivery` when all of them arrive, `HandshakeStream` what the server makes of the bytes whatever
  happens, and `HandshakeNames` the name and payload it then uses.
- **Client.** `Parser` is the command line parsed into fixed buffers. `SyncClient` is the thread that applies the
  server's commands and the thread that propagates the user's changes, with the flag between them; `SyncRequests` says
  what it asks the server for, and `Echoes` which schedules of the two send the server its own changes.

Facts about the code that the statements make explicit:

- A refused login ends its thread with `pthread_exit` while the semaphore is held (server-side/source/Server.cpp:44-46
  with 817-832). `Start` takes a parameter `refusalReleases`; every theorem about runs holds for both values, and
  `RefusalFreezes` proves what the code's own value means: no login, exit or notification ever happens again.
- A backup that joins late gets no snapshot (server-side/source/Server.cpp:32-35). `LateAgreement` proves that it ends
  up with the primary's devices exactly when every device logged in at that moment has logged in again or exited since.
- The two semaphores both guard the sockets of the backups (server-side/source/Server.cpp:846-847 against 959-961), so a
  message can be written into the middle of another one. `StreamIntegrity` proves that without that the backup receives
  exactly the messages sent. `CrossingBreaks` proves the converse: from every state in which one message is about to cross
  another, whichever lock came first and wherever it stands, some run has the backup receive something that is neither.
  `CrossingCorrupts` says what: a crossed upload gets another payload, a crossed delete another path or none, a crossed exit
  is one of the user "\1", and a crossed login is of a user named by the end of a path.
- The client does not wait after a payload (client-side/source/Client.cpp:106), so an upload leaves one ack unread
  (server-side/source/Server.cpp:924) and the next one runs one wait ahead. `DeliveredExactly` proves that all uploads of
  a connection arrive in every schedule exactly when there is at most one, or two of which the second is empty, or, with
  anything unread before, none or one empty one. `StoresShifted` says what the server stores otherwise: a name too long by
  some bytes and a payload that begins as many bytes later and ends with bytes of the next command. `LastSwallowNeverEnds`
  says what happens when there is no next command, and `NameRightExactly` when the first name is right.
- The file is written under no lock. `StoredExactly` says what the primary then has, in whatever order the threads wrote;
  `Convergence` is about every path on which no two operations were ever in flight together, and
  `OverlapDiverges` proves of any two that do, with different effects, that primary and backups can end apart;
  `DivergenceReached` gives the run.
- Looking up a user or device that has left dereferences null. `DeathCauses` says where, `DeathReached` gives a run, and
  `StaysAlive` proves that the primary lives through every run that avoids it.
- mkdir fails where the directory above is missing (server-side/source/Server.cpp:602-615), paths are copied into 100 bytes
  and directories into 50. `Legal` asks for user and file names that are entries of a directory, other than `.` and `..`,
  and for paths that fit.
- `strncpy` writes no terminator. `WithoutReset` proves that the path is right exactly when the byte behind it is NUL.
- The fan-out test on `socket2` is redundant as long as descriptors are distinct; `FanoutExact` has the exact condition.
- The comment in th_func_inotify (client-side/source/Box.cpp:194) says that only the user's changes are propagated. `NoEcho`
  proves it when no batch falls between raising the flag and the change it announces, `EchoesExactly` of every schedule
  whether it sends one of the server's changes back, and `ChangesLost` that the flag also swallows the user's own changes.

Clients use device ids other than -1; `Legal` and `Proper` say so.

## Model

| member | source | states |
|---|---|---|
| `SessionTable.UserAt` | server-side/source/Server.cpp:695-702 | the first row with the name, or none; a row before it never matches |
| `SessionTable.LiveCount` | server-side/source/Server.cpp:763-777 | the count reaches the row's length exactly when no slot is free |
| `SessionTable.Logged` | server-side/source/Server.cpp:779-787 | the count reaches the table's length exactly when no row is free |
| `SessionTable.EmptyTableInv` | server-side/source/Server.cpp:617-628 | the initial table meets the table invariant |
| `SessionTable.InsertDeviceForm` | server-side/source/Server.cpp:663-725 | inserting a device and its socket either fails with no free slot and no change, or writes exactly one slot of one row |
| `SessionTable.LoginDecision` | server-side/source/Server.cpp:808-897 | the whole decision tree: a login is accepted exactly when its device is there, or its user has a free slot, or the user is absent and a row is free; refusals change nothing; nack2, nack5, the silent path and the null dereference are unreachable |
| `SessionTable.ExitEffect` | server-side/source/Server.cpp:1099-1113 | an exit frees exactly the device's slot, and the row with its last device; only an absent device faults |
| `SessionTable.SeatedKeepsInv` | server-side/source/Server.cpp:808-897 | an accepted login keeps the table invariant (distinct names and ids, a row named exactly when it has a live device, free slots with all sockets -1) and makes the device present |
| `SessionTable.VacatedKeepsInv` | server-side/source/Server.cpp:1109-1113 | an exit keeps the table invariant and leaves the device absent |
| `SessionMap.SlotUpdate` | server-side/source/Server.cpp:663-745 | writing one slot changes one entry of the row's map and no other |
| `SessionMap.RowUpdate` | server-side/source/Server.cpp:630-661 | writing one row changes one entry of the table's map and no other |
| `SessionMap.InsertUserRefines` | server-side/source/Server.cpp:630-649 | insert_user adds one empty entry, or finds the user there, or reports an error exactly when the map is full |
| `SessionMap.InsertDeviceRefines` | server-side/source/Server.cpp:704-725 | insert_device adds one unplugged device, with the return code decided by the map |
| `SessionMap.InsertSocketRefines` | server-side/source/Server.cpp:663-679 | insert_socket changes one of the three sockets of one device, and faults exactly for an absent one |
| `SessionMap.RemoveDeviceRefines` | server-side/source/Server.cpp:727-745 | remove_device removes exactly that entry, or reports an error and changes nothing |
| `SessionMap.RemoveUserRefines` | server-side/source/Server.cpp:651-661 | remove_user removes the user exactly when it has no device left |
| `SessionMap.LookupsRefine` | server-side/source/Server.cpp:681-702 | lookups and both counters agree with membership and sizes of the map |
| `SessionMap.LoginAdmission` | server-side/source/Server.cpp:808-897 | a login is admitted by the table exactly when it is by the map |
| `SessionMap.LoginRefines` | server-side/source/Server.cpp:808-897 | an accepted login is one map update |
| `SessionMap.ExitRefines` | server-side/source/Server.cpp:1099-1113 | an exit is one map removal, of the user too after its last device |
| `SessionRuns.NextForm` | server-side/source/Server.cpp:808-897 | every event, accepted or refused, keeps the invariant; what is not accepted changes nothing |
| `SessionRuns.RunKeepsInv` | server-side/source/Server.cpp:44-46 | the table invariant holds after any run of logins and exits |
| `SessionRuns.ReachableLogin` | server-side/source/Server.cpp:815-881 | the decision theorem on every reachable table |
| `SessionRuns.LoginsThenExitRestore` | server-side/source/Server.cpp:1099-1113 | a fresh device's logins, in any order and number, followed by its exit give back the table slot by slot |
| `SessionRuns.DeviceLeavesNoTrace` | server-side/source/Server.cpp:727-745 | with others acting in between and nobody refused, a run without a departed device's events refuses nobody either and ends in the same map |
| `SessionRuns.ReplayInsertForm` | server-side/source/Server.cpp:247-261 | a backup replays a login that its table admits as that login, with the descriptor that the client sent |
| `SessionRuns.ReplayInsertAgrees` | server-side/source/Server.cpp:247-261 | replaying an accepted login on a table of the same shape gives a table of the same shape and does not fault |
| `SessionRuns.ReplayExitAgrees` | server-side/source/Server.cpp:263-281 | the same for a replayed exit |
| `Fanout.TargetsAre` | server-side/source/Server.cpp:936-948 | the targets are the user's live devices that pass both tests, each once |
| `Fanout.FanoutExact` | server-side/source/Server.cpp:1028-1034 | every other live device is a target if and only if the sender's descriptor is no other device's second socket |
| `Fanout.FreshRunKeepsDistinct` | server-side/source/Server.cpp:663-679 | runs over fresh descriptors keep all sockets in the table distinct |
| `Fanout.ReachableFanout` | server-side/source/Server.cpp:936-948 | after any such run a change goes exactly once to each other live device of the user and to nobody else's socket |
| `SessionServer.Server.constructor` | server-side/source/Server.cpp:617-628 | the arrays start empty and in order |
| `SessionServer.Server.GetUser` | server-side/source/Server.cpp:695-702 | the loop finds the first row with the name |
| `SessionServer.Server.FindDevice` | server-side/source/Server.cpp:747-761 | the loop finds the first slot with the id |
| `SessionServer.Server.IsConnected` | server-side/source/Server.cpp:681-693 | some device is live, and true for a user that is not found |
| `SessionServer.Server.NumberOfDevices` | server-side/source/Server.cpp:763-777 | the loop counts the live devices |
| `SessionServer.Server.NumberOfUsersLogged` | server-side/source/Server.cpp:779-787 | the loop counts the named rows |
| `SessionServer.Server.AddUser` | server-side/source/Server.cpp:630-649 | new table and return code are those that InsertUserRefines speaks about |
| `SessionServer.Server.AddDevice` | server-side/source/Server.cpp:704-725 | new table and return code are those that InsertDeviceRefines speaks about |
| `SessionServer.Server.AddSocket` | server-side/source/Server.cpp:663-679 | the new table is the one that InsertSocketRefines speaks about |
| `SessionServer.Server.DropDevice` | server-side/source/Server.cpp:727-745 | new table and return code are those that RemoveDeviceRefines speaks about |
| `SessionServer.Server.DropUser` | server-side/source/Server.cpp:651-661 | the loop over every row clears at most the one row that RemoveUserRefines speaks about |
| `SessionServer.Server.SendToBackups` | server-side/source/Server.cpp:951-963 | every registered backup gets the message once, no other slot anything |
| `SessionServer.Server.InsertServer` | server-side/source/Server.cpp:444-453 | a backup takes the first free slot, and none exactly when all are taken |
| `SessionServer.Server.HandleLogin` | server-side/source/Server.cpp:808-897 | in place: the decision theorem, the invariant, and one message to every backup exactly when accepted |
| `SessionServer.Server.ExitCommand` | server-side/source/Server.cpp:1099-1128 | in place: the exit's effect, the invariant, the device absent, and one message to every backup |
| `Wire.LowBytes` | server-side/source/Server.cpp:921 | reading the size field as an int takes its low 32 bits |
| `Wire.SizeSurvives` | server-side/source/Server.cpp:921 | the size survives exactly when it fits an int, or is so large that it reads as negative and widens back |
| `Wire.FirstChunk` | server-side/source/Server.cpp:556-561 | the first chunk has a non-negative size exactly when the total is not negative as an int |
| `Wire.ChunksFlat` | server-side/source/Server.cpp:571-592 | the chunks of a payload put together are the payload |
| `Wire.WritesFlat` | server-side/source/Server.cpp:935-948 | the writes of a notification put together are the frame |
| `Wire.CStringIs` | client-side/source/Box.cpp:264 | a name followed by NUL is read back whatever is behind it |
| `Wire.CStringPrefix` | utils/source/Instruction.cpp:3-43 | a buffer beginning with a string holds that string exactly when NUL follows or nothing does |
| `Wire.DecodeWhole` | client-side/source/Box.cpp:246-284 | a whole frame decodes to what it says and leaves the bytes behind it |
| `Wire.DecodeCut` | client-side/source/Box.cpp:246-284 | a frame cut short anywhere is not decoded |
| `Wire.DecodePrefix` | client-side/source/Box.cpp:246-284 | any prefix of a stream of frames is whole frames and a proper part of the next, and exactly the whole ones are decoded |
| `Channel.Endpoint.SendLargePayload` | server-side/source/Server.cpp:571-592 | the loop ends and writes exactly the chunks of the payload |
| `Channel.Endpoint.ReadLargePayload` | client-side/source/Client.cpp:134-153 | under any schedule of short reads: the count is at most the size, the buffer has that many stream bytes, it is the size exactly when no read was short, and a short chunk's bytes are lost |
| `Channel.Endpoint.ReadOrExit` | server-side/source/Server.cpp:535-554 | the thread goes on exactly when no read was short, with the buffer filled from the stream and the rest unread |
| `Channel.RoundTrip` | client-side/source/Client.cpp:134-184 | sending and receiving any payload below 2^31 bytes, empty included, returns it and leaves what is behind it |
| `Disk.StoredPathInjective` | server-side/source/Server.cpp:926-928 | slash-free names of different users or files are stored at different paths |
| `Disk.DrainReplays` | server-side/source/Server.cpp:151-171 | working off the rest of a queue completes the replay of the whole log |
| `Disk.ReplaySessions` | server-side/source/Server.cpp:151-171 | the replayed table depends on the session messages alone |
| `Disk.ReplayDirs` | server-side/source/Server.cpp:247-256 | a backup has exactly the directories that the logins it has seen could make |
| `Cluster.OneThreadMoves` | server-side/source/Server.cpp:44-61 | a step of a thread moves that thread and no other |
| `ClusterLocks.StepControl` | server-side/source/Server.cpp:930-964 | every step keeps mutual exclusion: each semaphore's holder is exactly the thread in its section, and threads are where their data allows |
| `ClusterLogs.StepLogs` | server-side/source/Server.cpp:951-964 | every step keeps: the whole messages of a lock class in a backup's log plus the one still being sent to it are what was committed, in lock order |
| `ClusterTables.StepTables` | server-side/source/Server.cpp:838-848 | every step keeps: the primary's table is in order and has the shape of the replayed session messages |
| `ClusterCausal.StepCausal` | server-side/source/Server.cpp:44-61 | every step keeps: a thread past its login finds its user's login in every log, and file messages follow it |
| `ClusterFiles.SendTakesEffect` | server-side/source/Server.cpp:220-245 | a file message sent to a backup changes its own path there as it says, and no other |
| `ClusterFiles.StepPath` | server-side/source/Server.cpp:930-964 | without overlaps every step keeps: an operation owed to a backup is what the primary has at the path, and with none owed the replay has the same |
| `ClusterWires.StepWire` | server-side/source/Server.cpp:935-949 | every step keeps: the bytes on a socket plus the writes still to be done are the committed frames |
| `ClusterSockets.StepSockets` | server-side/source/Server.cpp:663-679 | over fresh descriptors every step keeps: sockets in the table are distinct, and a running thread's descriptor is in the table only as its own device's |
| `ClusterSockets.NotifiedOnce` | server-side/source/Server.cpp:931-949 | in every concurrent run over fresh descriptors, committing a notification adds its frame once to the socket of each other live device of the user and to no other descriptor |
| `ClusterHistory.ThreadsServe` | server-side/source/Server.cpp:44-65 | in every run a thread serves the connection it was started for, carries out the last command that it took, and takes commands only for a first or second connection of a device, never a third |
| `ClusterNotified.SocketsAreLatest` | server-side/source/Server.cpp:663-679 | after every run the table has a descriptor as the first, second or third one of a device if and only if it is that of the device's latest accepted connection of that kind, and the device has not exited since |
| `ClusterNotified.NotifiedExactly` | server-side/source/Server.cpp:931-949 | in every run over fresh descriptors, committing a notification adds the frame of the thread's last command to a descriptor if and only if that is the latest accepted third connection of another device of its connection's user which has not exited since |
| `ClusterDelivered.FramesAreTold` | server-side/source/Server.cpp:931-949 | in every such run the frames committed on a descriptor are those of all uploads and deletes of such other devices since the connection on it was accepted |
| `ClusterDelivered.DirectoryFollows` | client-side/source/Box.cpp:242-284 | however the threads interleave, the bytes on a descriptor leave the client's directory holding under each name exactly what the last of the first k of those frames about it says, and of all of them when no notification is going on |
| `ClusterTheorems.PrefixAgreement` | server-side/source/Server.cpp:951-964 | of whole messages, in every interleaving, per lock: a later slot's log is a prefix of an earlier one's and of what was committed, shorter by at most one |
| `ClusterTheorems.Failover` | server-side/source/Server.cpp:203-215 | of whole messages: whichever backup wins the election lacks, once drained, at most one message per lock that the other has, and at most the one being sent, with which it has the dead primary's users and devices |
| `ClusterReached.WinnerHasAll` | server-side/source/Server.cpp:203-215 | whatever the ids, the winner has every message the loser has in all runs that end in a crash if and only if its slot is not the later one |
| `ClusterTheorems.SessionReplication` | server-side/source/Server.cpp:247-281 | of whole messages: a backup there from the start that works off its log and the message being sent never faults and matches the primary's names and ids slot by slot |
| `ClusterTheorems.CausalOrder` | server-side/source/Server.cpp:44-61 | of whole messages: every file message follows a login of its user in every backup's log, so the directory is there and the message takes effect |
| `ClusterStored.WriteStores` | server-side/source/Server.cpp:926-931 | a thread's write leaves the payload of its upload at the user's path, or nothing after a delete, and every other path as it was |
| `ClusterStored.StoredExactly` | server-side/source/Server.cpp:926-931 | in every run the primary has a content at a path if and only if the last upload or delete written there is an upload of it |
| `ClusterStored.BackupsStore` | server-side/source/Server.cpp:951-964 | so has every backup that works off its log, at a path without overlapping operations and with none in flight for it |
| `ClusterStored.OperationRuns` | server-side/source/Server.cpp:926-964 | an operation about to write can always run to its end alone, and then the primary and every backup that works off its log have exactly its payload at the path, or nothing after a delete |
| `ClusterTheorems.Convergence` | server-side/source/Server.cpp:930-964 | of whole messages: at every path on which no two operations were ever in flight together, a backup that works off its log has the primary's content if nothing is in flight for it, and otherwise after the message in flight |
| `ClusterTheorems.Isolation` | server-side/source/Server.cpp:926-958 | while a user starts no upload or delete, no run of others changes the user's files on the primary or on any replayed backup |
| `ClusterTheorems.FrameIntegrity` | server-side/source/Server.cpp:935-949 | however threads interleave write by write, a notification socket carries whole frames in lock order and at most one partial one, and the client decodes exactly the whole ones |
| `MessageBytes.WritesAreBytes` | server-side/source/Server.cpp:951-963 | the writes of a message put together are its bytes |
| `MessageBytes.ConnectionSurvives` | server-side/source/Server.cpp:247-260 | a connection record is read back whatever fills its unused bytes |
| `MessageBytes.ExitSurvives` | server-side/source/Server.cpp:263-271 | so is an exit record, as a value |
| `MessageBytes.ReceiveWhole` | server-side/source/Server.cpp:151-171 | a round of the backup's loop receives a whole message as what it says and leaves the bytes behind it |
| `MessageBytes.ReceiveCut` | server-side/source/Server.cpp:151-171 | a message cut short anywhere makes the loop wait |
| `BackupStreams.StepKeepsStream` | server-side/source/Server.cpp:838-848 | every chunk write, backup round or other step that crosses no message keeps: a backup's unread bytes are the messages it has not applied and a proper part of at most one more, and its store is the one of the message-level system |
| `BackupStreams.RunIsCluster` | server-side/source/Server.cpp:951-963 | every run of the bytes, crossed or not, goes through states of the message-level system and keeps its invariants |
| `BackupTheorems.WholeMessagesAgree` | server-side/source/Server.cpp:951-963 | however the chunks of all messages interleave, prefix agreement holds of the messages wholly written |
| `BackupTheorems.StreamIntegrity` | server-side/source/Server.cpp:151-171 | in every run without a crossing, a backup's loop receives exactly the messages of its log it has not applied, and its store is the replay of the others |
| `BackupTheorems.ReplicationOfBytes` | server-side/source/Server.cpp:247-281 | in those runs a backup that receives all it can, and the session message being sent, does not fault and matches the primary slot by slot |
| `BackupTheorems.ConvergenceOfBytes` | server-side/source/Server.cpp:220-245 | in those runs, at every path without overlapping operations, it has the primary's content if nothing is in flight for it, and otherwise after the operation in flight |
| `BackupTheorems.StoredFromBytes` | server-side/source/Server.cpp:220-245 | there it has exactly what the last upload or delete written at the path says, once none is in flight for it |
| `BackupTheorems.FailoverOfBytes` | server-side/source/Server.cpp:172-215 | in those runs a backup with no whole message unread is the replay of its log, lacks at most one session message of the dead primary, and at every path without overlapping operations has its content if none was in flight |
| `BackupRuns.Lift` | server-side/source/Server.cpp:951-963 | every run of the message-level system in which no backup moves is one of the bytes, without a crossing |
| `CrossedBytes.MimicsExactly` | server-side/source/Server.cpp:235-245 | the payload made of a crossed upload is its own if and only if what was left of it repeats the other message |
| `CrossedBytes.ReceiveInstead` | server-side/source/Server.cpp:151-171 | one round of the backup's loop over a message in the middle of which another one was written, for each of the four kinds |
| `CrossedBytes.InsertedUser` | server-side/source/Server.cpp:247-261 | the user of a crossed login is the end of the other message's path, with a slash in it |
| `CrossedBytes.SurvivesExactly` | server-side/source/Server.cpp:151-171 | what is received is the crossed message all the same exactly when an upload repeats the other message, a delete was cut behind its path or reads the same, or an exit is of the user and device that the other message's header spells; a login never |
| `CrossedBytes.FewLeft` | server-side/source/Server.cpp:151-171 | with at most 111 bytes of the crossed message left and padding that no command begins with, something is received that is neither of the two, whatever the messages |
| `Crossings.CrossingCorrupts` | server-side/source/Server.cpp:951-963 | from every state in which a message is about to cross another one of which no part of a record is written, there is a run after which the backup has received all messages before them as sent and then exactly what ReceiveInstead says |
| `Crossings.CrossingBreaks` | server-side/source/Server.cpp:846-847 | from every state in which a message is about to cross another one, whatever the two are and however much of the first one is written, some run has the backup receive something that is neither in the place of one of them |
| `Crossings.CorruptionReached` | server-side/source/Server.cpp:838-848 | such a run from the start, for every upload or delete, every login and any number of backups, with either of the two written first |
| `ClusterFailures.DeathCauses` | server-side/source/Server.cpp:931-936 | the primary dies if and only if it is killed, a device that is gone exits, or the user to be notified is gone |
| `ClusterReached.DeathReached` | server-side/source/Server.cpp:931-936 | a run from the start, for every user, device and upload, in which the primary dies without being killed |
| `ClusterSurvival.StaysAlive` | server-side/source/Server.cpp:1099-1113 | the primary lives through every run in which nobody exits a device that is gone, or the last device of a user with an operation not notified yet, and nobody starts one for a user who is gone |
| `ClusterSurvival.AliveFromStart` | server-side/source/Server.cpp:1099-1113 | the same from the start |
| `ClusterFailures.RefusalSticks` | server-side/source/Server.cpp:817-832 | a refused login keeps the semaphore and leaves the table |
| `ClusterFailures.RefusalFreezes` | server-side/source/Server.cpp:817-832 | after that no run changes the table, the session messages or the bytes on any notification socket |
| `ClusterReached.RefusalReached` | server-side/source/Server.cpp:817-832 | a run from the start that fills a user's device slots and ends in a refusal that keeps the semaphore |
| `ClusterRuns.LoginRuns` | server-side/source/Server.cpp:44-65 | a login that is admitted can always run to its end alone, seated, and its thread then takes commands if and only if it is a first or second connection |
| `ClusterRuns.FinishRuns` | server-side/source/Server.cpp:930-964 | an operation that has written can always run to its end alone, and then every backup has its message |
| `ClusterFailures.OverlapDiverges` | server-side/source/Server.cpp:930-964 | any two operations about to write one path with different effects can end with the primary having one and every backup the other |
| `ClusterReached.DivergenceReached` | server-side/source/Server.cpp:930-964 | a run from the start, for every two operations of one device on one file with different effects, that leaves primary and backups apart with nothing under way |
| `ClusterFailures.OnlyInserts` | server-side/source/Server.cpp:247-281 | only an INSERT_USER of a device brings it into a backup's table |
| `ClusterFailures.LateBackup` | server-side/source/Server.cpp:247-281 | over any sequence of messages, wherever it begins, a backup has in its table only devices whose INSERT_USER is in it |
| `LateBackups.NeverRefused` | server-side/source/Server.cpp:247-261 | a backup with less in its table refuses no login that the primary admits |
| `LateBackups.KnowsWhatItSaw` | server-side/source/Server.cpp:247-281 | after any run a late backup has a device exactly when the primary has it and it was there before or was seen since, and it never faults |
| `LateBackups.LateAgreement` | server-side/source/Server.cpp:32-35 | a backup that joins late has the primary's devices after a run if and only if every device logged in when it joined is named by some event of the run |
| `LateBackups.QuietDeviceIsMissing` | server-side/source/Server.cpp:32-35 | a device that was there and is quiet since stays with the primary and unknown to the backup |
| `LateFiles.ReplayedExactly` | server-side/source/Server.cpp:220-245 | a backup that joins at any time has a content at a path if and only if the last message that settles it, a delete or an upload after a login of its user was seen, is an upload of that content |
| `Handshake.ChunkAt` | server-side/source/Server.cpp:535-561 | the reader asks for exactly the chunk that the writer wrote |
| `HandshakeOrder.ServerInOrder` | server-side/source/Server.cpp:1139-1165 | every read or ack of the server, when nothing is behind a name it reads, keeps: commands done and segments read are those sent, and what is on its way is what the client has written since |
| `HandshakeAcks.RunGood` | server-side/source/Server.cpp:899-924 | under the condition of DeliveredExactly every schedule keeps that order, with every ack where it should be |
| `HandshakeBreaks.Lockstep` | client-side/source/Client.cpp:68-109 | any number of uploads on one connection can arrive, one ack being left unread by each |
| `HandshakeBreaks.UnreadAckCorrupts` | client-side/source/Client.cpp:119-125 | with anything unread before it, every upload behind whose name something is written has a schedule in which the name read takes bytes of that |
| `HandshakeDelivery.HandshakeDelivers` | server-side/source/Server.cpp:899-924 | from empty streams every interleaving leaves the server with exactly the sent name, size and payload, nothing unread by it and one unread ack (after an empty payload possibly none) |
| `HandshakeDelivery.DeliveredExactly` | client-side/source/Client.cpp:68-109 | every schedule of a connection delivers all its uploads, if and only if there is at most one, or two of which the second is empty, or, with anything unread before, none or one empty one |
| `HandshakeDelivery.StepsRunOut` | client-side/source/Client.cpp:68-109 | every step that does anything reduces the calls still to be made, so every connection comes to rest |
| `HandshakeDelivery.ComesToRest` | client-side/source/Client.cpp:68-109 | every state that a schedule reaches, with whatever was unread, can be continued to rest |
| `HandshakeStream.RunConserves` | server-side/source/Server.cpp:535-554 | in every schedule, everything the client has written is read, being read or on its way, in order, and a thread that has ended has read nothing else |
| `HandshakeNames.ReadsInOrder` | server-side/source/Server.cpp:899-919 | whatever was unread and whatever uploads follow, the server gets command, packet type and size of the first upload right, and for the name the name with at most a beginning of what is written behind it |
| `HandshakeNames.StoresShifted` | server-side/source/Server.cpp:914-927 | with some bytes too many in the name, the payload stored begins as many bytes later and ends with as many bytes of what follows the upload |
| `HandshakeNames.LastSwallowNeverEnds` | server-side/source/Server.cpp:535-554 | if the read of the last upload's name takes payload bytes, the server never gets that payload: at rest it is thrown out by a short read or waits for it |
| `HandshakeNames.NameRightExactly` | server-side/source/Server.cpp:914-927 | the C string the server uses as the first name is right in every schedule if and only if nothing was unread, or NUL is written behind the name, or nothing is |
| `Parser.Instruction.Reset` | utils/source/Instruction.cpp:86-94 | every byte of every buffer is NUL and the command is invalid |
| `Parser.Instruction.Prepare` | utils/source/Instruction.cpp:3-66 | what the buffers hold after any line that fits, which of their bytes keep their old value, and exactly when a null pointer is dereferenced |
| `Parser.Instruction.TypeUpload` | utils/source/Instruction.cpp:96-101 | whatever came before and however many spaces come first, an upload of an absolute path leaves a path ending in '/' and a slash-free name, and the path opened is the one typed |
| `Parser.Instruction.TypeFile` | utils/source/Instruction.cpp:30-36 | typing a delete or a download of a name leaves the id of that command, exactly the name, and no path |
| `Parser.Instruction.TypeWord` | utils/source/Instruction.cpp:72-88 | each of the four commands without a file leaves its own id and no file, whatever is typed behind it |
| `Parser.Instruction.TypeOther` | utils/source/Instruction.cpp:72-88 | any other first word leaves the invalid id |
| `Parser.Instruction.TypeShort` | utils/source/Instruction.cpp:3-36 | a line of spaces, and a command that needs a file without one, dereference null |
| `Parser.PartsOf` | utils/source/Instruction.cpp:3-43 | an upload line splits at the last slash into two parts that give the typed path back |
| `Parser.WithoutReset` | utils/source/Instruction.cpp:3-43 | without the reset the path is right exactly when the byte behind it happened to be NUL |
| `SyncClient.Box.ReceiveCommand` | client-side/source/Box.cpp:242-284 | one round takes exactly one frame off the stream, raises the flag and applies the command the decoder gives |
| `SyncClient.Box.ReceiveCommands` | client-side/source/Box.cpp:242-284 | any number of rounds takes exactly as many frames off the stream, and the directory then holds a content under a name if and only if the last of the frames about it is an upload of that content, or there is none and it was there before |
| `SyncClient.DirectorySays` | client-side/source/Box.cpp:252-279 | the same of the commands of any sequence of frames |
| `SyncClient.Box.ReceivePayload` | client-side/source/Box.cpp:268-273 | size field and payload are taken off the stream exactly |
| `SyncClient.Box.ProcessBatch` | client-side/source/Box.cpp:170-234 | the whole queue is worked off; with the flag up nothing is sent, otherwise exactly the requests of the events in order; the flag is lowered only by a batch with events |
| `SyncClient.RequestsOfPropagated` | client-side/source/Box.cpp:185-225 | the requests sent are those of the propagated events, one each, in order |
| `SyncRequests.RequestsExactly` | client-side/source/Box.cpp:185-225 | a batch asks, in the order of the events, for an upload for each file written or moved in and a delete for each one deleted or moved out, except those moved out with ".goutputstream-" somewhere in their name |
| `SyncRequests.ServerFollows` | client-side/source/Box.cpp:170-234 | whatever the user does between two batches with the flag down, the requests of the next batch make the server have exactly what the user has under every name without that marker |
| `SyncRequests.EchoIsTheCommand` | client-side/source/Box.cpp:185-201 | if the event of a received command were propagated, it would ask for that command again |
| `SyncClient.NoEcho` | client-side/source/Box.cpp:170-284 | if no batch with events falls between a flag and its change, no run sends the server one of its own changes |
| `SyncClient.BatchInBetweenEchoes` | client-side/source/Box.cpp:234-249 | in every state with an event queued there is a schedule that sends any upload back |
| `Echoes.EchoesExactly` | client-side/source/Box.cpp:170-284 | of every schedule: the server is sent one of its own changes if and only if a batch with events falls between the raising of a command's flag and its application, the application causes an event, and the next batch comes before any flag is raised again |
| `SyncClient.ChangesLost` | client-side/source/Box.cpp:186-234 | changes of the user before the next batch are all sent if the flag is down and all lost if it is up |

## Left out

- Download, in `Handshake` the state `Elsewhere`: its not-found reply is uninitialised and its acks and length travel back to back, so nothing can be said about it without assuming more of the socket.
- Directory listing, time stamps, console messages, `get_sync_dir`, mkdir modes.
- Heartbeats, whose threads are never created.
- Creating, binding and connecting sockets, reading the server list, and the sockets of the election; which backup the comparison of ids picks is left open, and the results hold of either. Detecting the primary's death is the event `Crash`.
- Which packet type a connection has: every login is of type CONN, and another type would only leave its thread without a loop.
- Closing the three sockets on exit; a closed descriptor only returns as the descriptor of a later login.
- ClusterTheorems.PrefixAgreement: is about whole messages, as are the other results of `ClusterTheorems` about backups; `BackupTheorems` and `Crossings` are about their bytes.
- Crossings.CrossingCorrupts: for a login or exit of whose record a part is written, only CrossingBreaks says something, not what exactly is received.
- BackupStreams.StepKeepsStream: a backup takes a whole message off its stream in one step, waiting until it is there; a write of no bytes is left out.
- ClusterSockets.NotifiedOnce: accept returns no descriptor that a thread still uses. A thread whose device has exited on another connection keeps a closed one, which could be handed out again; `FanoutExact` has the exact condition for that case.
- LateBackups.LateAgreement: is about users and devices; the files stored before a backup joined are not sent to it either.
- The unsynchronised reading of the list of backups while one joins: the list is fixed during a run of `Cluster`.
- Heap and stack overflows: lengths are preconditions (an uploaded name below 99 bytes, a typed path below 200, a payload below 2^31). The EXIT record, which holds a `std::string`, is a value: its name, device and descriptor in a record of 108 bytes.
- Steps inside one file write, and short or failing writes.
- set_filename and set_path, which overwrite a buffer without a reset; client events carry their name as a value.
- Events of the directory as bytes of the inotify buffer, and a batch longer than it: a batch is the whole queue.
- Disks that hold files at the start: primary and backups start empty.
- ClusterTheorems.Isolation: is stated over runs from any state in order, for a user with nothing in flight at their start.
- Handshake connections carry uploads only: a delete, a listing or an exit between them has a wait of its own, and its header is one more that an unread ack lets through early.
