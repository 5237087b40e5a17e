/** Uploads on one connection: the client's writes and waits against the server's reads and acks, as two processes over
    two byte streams. Acks are all that separates a file name from what is written behind it. */
module Handshake {
  import opened Limits
  import opened Wire

  const ACK := "ack"
  const FILE := 2
  const LAST := 4

  datatype Upload = Upload(header: string, name: string, payload: string)

  /** A name must leave room for its NUL in the part of the server's buffer that is zeroed. */
  ghost predicate UploadOk(u: Upload) {
    && |u.header| == HEADER && u.header[0] == CMD as char && Decode64(u.header[8..16]) == UPLOAD
    && 1 <= |u.name| < INFO - 1 && '\0' !in u.name && |u.payload| <= INT_MAX
  }

  ghost predicate AllOk(us: seq<Upload>) { forall i :: 0 <= i < |us| ==> UploadOk(us[i]) }

  /** The segments of an upload: command, packet type, size, name, payload. */
  function Content(u: Upload, seg: nat): string {
    if seg == 0 then u.header
    else if seg == 1 then Encode64(FILE)
    else if seg == 2 then Encode64(|u.payload|)
    else if seg == 3 then u.name
    else u.payload
  }

  predicate Chunked(seg: nat) { seg == 0 || seg == LAST }

  function WritesOf(u: Upload, seg: nat): (ws: seq<string>)
    ensures ws != []
  {
    if Chunked(seg) then Chunks(Content(u, seg)) else [Content(u, seg)]
  }

  /** The first n segments, as the server should have them. */
  function Contents(u: Upload, n: nat): seq<string> { seq(n, i requires 0 <= i < n => Content(u, i)) }

  /** All the segments of all uploads, five each, in the client's order. */
  function Total(us: seq<Upload>): nat { 5 * |us| }

  function ContentAt(us: seq<Upload>, g: nat): string
    requires g < Total(us)
  {
    Content(us[g / 5], g % 5)
  }

  function WritesAt(us: seq<Upload>, g: nat): (ws: seq<string>)
    requires g < Total(us)
    ensures ws != []
  {
    WritesOf(us[g / 5], g % 5)
  }

  /** The client is in segment g of all, with so many of its writes done. */
  datatype Client = Client(g: nat, sent: nat)

  /** The server reads a segment of the current command, or is about to ack it; calls counts the reads made for it.
      Ended is a thread thrown out by a short read, or by an exit; Elsewhere a download, which is not followed. */
  datatype Server = Reading(seg: nat, got: string, calls: nat) | Acking(seg: nat) | Ended | Elsewhere

  /** What the server has read of the current command, and of the commands before. */
  datatype State = State(client: Client, server: Server, current: seq<string>, done: seq<seq<string>>, up: string, down: string)

  function Start(unread: string): State { State(Client(0, 0), Reading(0, "", 0), [], [], "", unread) }

  function Drop(b: string, n: nat): string { if |b| <= n then "" else b[n..] }

  function Take(b: string, n: nat): string { if |b| <= n then b else b[..n] }

  /** The client waits for an ack after every segment of an upload but the last, and goes on with the next upload. */
  function ClientStep(us: seq<Upload>, s: State): State {
    var c := s.client;
    if c.g >= Total(us) then s
    else if c.sent < |WritesAt(us, c.g)| then s.(client := Client(c.g, c.sent + 1), up := s.up + WritesAt(us, c.g)[c.sent])
    else if c.g % 5 == LAST then s.(client := Client(c.g + 1, 0))
    else if s.down != "" then s.(client := Client(c.g + 1, 0), down := Drop(s.down, 8))
    else s
  }

  /** How many bytes the server expects of a segment that it reads in chunks. */
  function Expected(current: seq<string>, seg: nat): nat {
    if seg == 0 then HEADER else if |current| > 2 && |current[2]| == 8 then DecodeSize(current[2]) else 0
  }

  /** How many bytes the server's next read asks for. */
  function Asked(current: seq<string>, seg: nat, got: string): int {
    if Chunked(seg) then ChunkSize(Expected(current, seg), |got|) else if seg == 3 then INFO else 8
  }

  function ReadStep(s: State, seg: nat, got: string, calls: nat): State {
    var asked := Asked(s.current, seg, got);
    if asked < 0 then s.(server := Ended)
    else if asked > 0 && s.up == "" then s
    else
      var part := Take(s.up, asked);
      var got' := got + part;
      var s' := s.(up := Drop(s.up, asked));
      if Chunked(seg) && |part| != asked then s'.(server := Ended)
      else if Chunked(seg) && |got'| < Expected(s.current, seg) then s'.(server := Reading(seg, got', calls + 1))
      else s'.(server := Acking(seg), current := s.current + [got'])
  }

  /** The command in a header, as the server switches on it. */
  function CommandIn(current: seq<string>): nat {
    if current != [] && |current[0]| == HEADER then Decode64(current[0][8..16]) else 0
  }

  /** After the ack of a segment: the next segment of an upload, or the next command. A command that is no upload is
      over with its header, unless it is an exit or a download. */
  function AckStep(s: State, seg: nat): State {
    var s' := s.(down := s.down + ACK);
    var next := s'.(server := Reading(0, "", 0), current := [], done := s.done + [s.current]);
    if seg == 0 then
      var command := CommandIn(s.current);
      if command == UPLOAD then s'.(server := Reading(1, "", 0))
      else if command == EXIT then s'.(server := Ended)
      else if command == DOWNLOAD then s'.(server := Elsewhere)
      else next
    else if seg < LAST then s'.(server := Reading(seg + 1, "", 0))
    else next
  }

  function ServerStep(s: State): State {
    match s.server
    case Reading(seg, got, calls) => ReadStep(s, seg, got, calls)
    case Acking(seg) => AckStep(s, seg)
    case _ => s
  }

  /** True is a step of the client, false one of the server. */
  function Step(us: seq<Upload>, s: State, client: bool): State { if client then ClientStep(us, s) else ServerStep(s) }

  function Run(us: seq<Upload>, s: State, schedule: seq<bool>): State {
    if schedule == [] then s else Step(us, Run(us, s, schedule[..|schedule| - 1]), schedule[|schedule| - 1])
  }

  /** Neither process can go on. */
  predicate Halted(us: seq<Upload>, s: State) { ClientStep(us, s) == s && ServerStep(s) == s }

  // ---------- chunks line up ----------

  /** The reader asks for exactly the chunk that the writer wrote. */
  lemma {:induction false} ChunkAt(d: string, k: nat)
    requires |d| <= INT_MAX && k < |Chunks(d)|
    ensures |Chunks(d)[k]| == ChunkSize(|d|, |Flat(Chunks(d)[..k])|)
    ensures d != "" ==> Chunks(d)[k] != "" && |Flat(Chunks(d)[..k])| < |d|
    ensures |Flat(Chunks(d)[..k])| <= |d|
    decreases |d|
  {
    FirstOfChunks(d);
    FirstChunk(|d|);
    hide Chunks, ChunkSize;
    var cs := Chunks(d);
    if k == 0 {
      assert Flat(cs[..0]) == "";
    } else {
      var rest := d[BUFFER_SIZE..];
      ChunkAt(rest, k - 1);
      assert cs[..k][1..] == Chunks(rest)[..k - 1];
      assert Flat(cs[..k]) == cs[0] + Flat(cs[..k][1..]);
      LaterChunk(|d|, |Flat(Chunks(rest)[..k - 1])|);
    }
    hide Flat;
  }

  lemma FirstOfChunks(d: string)
    ensures Chunks(d) == if |d| <= BUFFER_SIZE then [d] else [d[..BUFFER_SIZE]] + Chunks(d[BUFFER_SIZE..])
  {}

  lemma LaterChunk(total: nat, done: nat)
    requires BUFFER_SIZE < total <= INT_MAX
    ensures ChunkSize(total, BUFFER_SIZE + done) == ChunkSize(total - BUFFER_SIZE, done)
  {}

  lemma FlatSnoc(cs: seq<string>, k: nat)
    requires k < |cs|
    ensures Flat(cs[..k + 1]) == Flat(cs[..k]) + cs[k]
  {
    assert cs[..k + 1] == cs[..k] + [cs[k]];
    FlatConcat(cs[..k], [cs[k]]);
    assert Flat([cs[k]]) == cs[k] + Flat([]);
  }

  // ---------- one read ----------

  /** The server's expectation of a chunked segment is right. */
  lemma ExpectedIs(u: Upload, seg: nat)
    requires UploadOk(u) && Chunked(seg)
    ensures Expected(Contents(u, seg), seg) == |Content(u, seg)| <= INT_MAX
  {
    if seg == LAST {
      assert Contents(u, LAST)[2] == Encode64(|u.payload|);
      SizeSurvives(|u.payload|);
    }
  }

  /** The next read asks for the next write, all of it, and nothing more is there to be taken. */
  lemma AskedIs(u: Upload, seg: nat, k: nat)
    requires UploadOk(u) && seg <= LAST && k < |WritesOf(u, seg)|
    ensures
      var ws := WritesOf(u, seg);
      var asked := Asked(Contents(u, seg), seg, Flat(ws[..k]));
      && |ws[k]| <= asked && (asked > |ws[k]| ==> |ws| == 1)
      && (Chunked(seg) ==> asked == |ws[k]|)
      && (seg != LAST || u.payload != "" ==> ws[k] != "")
  {
    if Chunked(seg) {
      ExpectedIs(u, seg);
      assert |Content(u, seg)| <= INT_MAX;
      hide Content, Contents, Expected, UploadOk;
      ChunkAt(Content(u, seg), k);
    }
  }

  /** How far the server is after reading write k. */
  lemma ReadIs(u: Upload, seg: nat, k: nat)
    requires UploadOk(u) && seg <= LAST && k < |WritesOf(u, seg)|
    requires seg == LAST ==> u.payload != ""
    ensures
      var ws := WritesOf(u, seg);
      var got := Flat(ws[..k]) + ws[k];
      && got == Flat(ws[..k + 1])
      && (k + 1 == |ws| ==> got == Content(u, seg))
      && (k + 1 < |ws| ==> Chunked(seg) && |got| < |Content(u, seg)|)
  {
    var ws := WritesOf(u, seg);
    FlatSnoc(ws, k);
    if k + 1 == |ws| {
      assert ws[..k + 1] == ws;
      if Chunked(seg) { ChunksFlat(Content(u, seg)); } else { assert Flat(ws) == ws[0] + Flat([]); }
    } else {
      ChunkAt(Content(u, seg), k + 1);
    }
  }

  /** A read takes exactly the next write, whatever is behind it; behind the name there must be nothing. */
  lemma ReadTakesWrite(u: Upload, s: State, seg: nat, k: nat, rest: string)
    requires UploadOk(u) && seg <= LAST && (seg == LAST ==> u.payload != "") && k < |WritesOf(u, seg)|
    requires s.server == Reading(seg, Flat(WritesOf(u, seg)[..k]), k) && s.current == Contents(u, seg)
    requires s.up == WritesOf(u, seg)[k] + rest && (seg == 3 ==> rest == "")
    ensures
      var ws := WritesOf(u, seg);
      ServerStep(s) ==
        if k + 1 < |ws| then s.(up := rest, server := Reading(seg, Flat(ws[..k + 1]), k + 1))
        else s.(up := rest, server := Acking(seg), current := Contents(u, seg + 1))
  {
    var ws := WritesOf(u, seg);
    AskedIs(u, seg, k);
    ReadIs(u, seg, k);
    if Chunked(seg) { ExpectedIs(u, seg); }
    var asked := Asked(s.current, seg, Flat(ws[..k]));
    assert seg != 3 ==> asked == |ws[k]|;
    hide Chunks, Flat, UploadOk, Expected, WritesOf, Asked;
    if asked > |ws[k]| { assert s.up == ws[k]; }
    assert Take(s.up, asked) == ws[k] && Drop(s.up, asked) == rest;
    assert Contents(u, seg) + [Content(u, seg)] == Contents(u, seg + 1);
    hide Content, Contents;
  }

  lemma FlatNothing()
    ensures Flat([]) == ""
  {}

  /** The read of an empty payload asks for nothing and does not wait. */
  lemma ReadTakesNothing(u: Upload, s: State)
    requires UploadOk(u) && u.payload == "" && s.server == Reading(LAST, "", 0) && s.current == Contents(u, LAST)
    ensures ServerStep(s) == s.(server := Acking(LAST), current := Contents(u, LAST + 1))
  {
    ExpectedIs(u, LAST);
    assert Contents(u, LAST) + [""] == Contents(u, LAST + 1);
    hide Contents, Expected, UploadOk;
  }

  /** A read of something waits while nothing is there. */
  lemma ReadWaits(s: State)
    requires s.server.Reading? && s.up == "" && Asked(s.current, s.server.seg, s.server.got) > 0
    ensures ServerStep(s) == s
  {}
}
