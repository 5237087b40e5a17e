/** The messages to a backup as bytes on its socket, and the loop with which a backup takes them off again. */
module MessageBytes {
  import opened Limits
  import opened SessionTable
  import opened Wire
  import opened Disk

  const INSERT_USER := 5
  const CONN := 3
  const NAME := 100
  const CONNECTION := 128
  const EXIT_RECORD := 108

  /** A message with the bytes that happened to be in memory where its records are not filled in. */
  datatype Packet = Packet(message: Message, padding: string, more: string)

  function Fill(junk: string, n: nat): (b: string)
    ensures |b| == n
  {
    if |junk| >= n then junk[..n] else junk + seq(n - |junk|, i => '\0')
  }

  /** A string in a buffer of n bytes. */
  function Buffer(s: string, junk: string, n: nat): (b: string)
    requires |s| < n
    ensures |b| == n
  {
    s + ['\0'] + Fill(junk, n - |s| - 1)
  }

  function CommandOfMessage(m: Message): nat {
    match m
    case InsertMsg(_) => INSERT_USER
    case ExitMsg(_, _) => EXIT
    case UploadMsg(_, _) => UPLOAD
    case DeleteMsg(_) => DELETE
  }

  /** additionalInfo and the padding behind it; an exit leaves it as it was. */
  function InfoOf(p: Packet): (info: string)
    requires MessageOk(p.message)
    ensures |info| == INFO + 4
  {
    match p.message
    case InsertMsg(_) => Buffer("stringteste", p.padding, INFO + 4)
    case ExitMsg(_, _) => Fill(p.padding, INFO + 4)
    case UploadMsg(path, _) => Buffer(path, p.padding, INFO + 4)
    case DeleteMsg(path) => Buffer(path, p.padding, INFO + 4)
  }

  /** A signed int in memory. */
  function EncodeSigned(n: int): (b: string)
    ensures |b| == 4
  {
    EncodeInt(n % TWO_32, 4)
  }

  function DecodeSigned(b: string): int
    requires |b| == 4
  {
    ToInt32(Decode32(b))
  }

  /** struct connection: packet type, socket type, device, user name, socket, padding. */
  function EncodeConnection(c: Connection, junk: string): (b: string)
    requires ConnectionOk(c)
    ensures |b| == CONNECTION
  {
    Encode64(CONN) + Encode64(c.socketType) + EncodeSigned(c.device) + Buffer(c.user, junk, NAME) + EncodeSigned(c.clientSocket)
      + Fill(junk, 4)
  }

  function DecodeConnection(b: string): Connection
    requires |b| == CONNECTION
  {
    Connection(CString(b[20..20 + NAME]), DecodeSigned(b[16..20]), Decode64(b[8..16]), DecodeSigned(b[120..124]))
  }

  /** The exit record as a value: the user's name, the device and the descriptor. */
  function EncodeExit(user: string, device: int, junk: string): (b: string)
    requires UserOk(user)
    ensures |b| == EXIT_RECORD
  {
    Buffer(user, junk, NAME) + EncodeSigned(device) + Fill(junk, 4)
  }

  function DecodeExit(b: string): Message
    requires |b| == EXIT_RECORD
  {
    ExitMsg(CString(b[..NAME]), DecodeSigned(b[NAME..NAME + 4]))
  }

  function HeaderBytes(p: Packet): string
    requires MessageOk(p.message)
  {
    Encode64(CMD) + Encode64(CommandOfMessage(p.message)) + InfoOf(p)
  }

  function RecordBytes(p: Packet): string
    requires MessageOk(p.message) && !IsFile(p.message)
  {
    match p.message
    case InsertMsg(c) => EncodeConnection(c, p.more)
    case ExitMsg(user, device) => EncodeExit(user, device, p.more)
  }

  function BodyBytes(p: Packet): string
    requires MessageOk(p.message)
  {
    match p.message
    case UploadMsg(_, payload) => Encode64(|payload|) + payload
    case DeleteMsg(_) => ""
    case _ => RecordBytes(p)
  }

  function Bytes(p: Packet): string
    requires MessageOk(p.message)
  {
    HeaderBytes(p) + BodyBytes(p)
  }

  /** The writes that put a message on a socket; the write of no bytes for an empty payload is left out. */
  function WritesOf(p: Packet): (ws: seq<string>)
    requires MessageOk(p.message)
    ensures ws != []
  {
    Chunks(HeaderBytes(p)) +
    match p.message
    case UploadMsg(_, payload) => [Encode64(|payload|)] + (if payload == "" then [] else Chunks(payload))
    case DeleteMsg(_) => []
    case _ => Chunks(RecordBytes(p))
  }

  lemma WritesAreBytes(p: Packet)
    requires MessageOk(p.message)
    ensures Flat(WritesOf(p)) == Bytes(p)
  {
    ChunksFlat(HeaderBytes(p));
    match p.message
    case UploadMsg(_, payload) =>
      var size, rest := [Encode64(|payload|)], if payload == "" then [] else Chunks(payload);
      if payload != "" { ChunksFlat(payload); }
      FlatConcat(size, rest);
      FlatConcat(Chunks(HeaderBytes(p)), size + rest);
    case DeleteMsg(_) => assert WritesOf(p) == Chunks(HeaderBytes(p));
    case _ =>
      ChunksFlat(RecordBytes(p));
      FlatConcat(Chunks(HeaderBytes(p)), Chunks(RecordBytes(p)));
  }

  // ---------- the backup's loop ----------

  /** What one round makes of the bytes; an unknown command is only reported. */
  datatype Received = Got(message: Message) | Ignored

  /** One round of second_server_processing: what it takes off the stream, or None when a read would block. */
  function ReceiveOne(b: string): Option<(Received, string)> {
    if |b| < HEADER then None
    else
      var command, name, rest := Decode64(b[8..16]), CString(b[16..16 + INFO]), b[HEADER..];
      if command == UPLOAD then ReceiveUpload(name, rest)
      else if command == DELETE then Some((Got(DeleteMsg(name)), rest))
      else if command == INSERT_USER then
        if |rest| < CONNECTION then None else Some((Got(InsertMsg(DecodeConnection(rest[..CONNECTION]))), rest[CONNECTION..]))
      else if command == EXIT then
        if |rest| < EXIT_RECORD then None else Some((Got(DecodeExit(rest[..EXIT_RECORD])), rest[EXIT_RECORD..]))
      else Some((Ignored, rest))
  }

  function ReceiveUpload(name: string, rest: string): Option<(Received, string)> {
    if |rest| < 8 then None
    else
      var size, behind := DecodeSize(rest[..8]), rest[8..];
      if |behind| < size then None else Some((Got(UploadMsg(name, behind[..size])), behind[size..]))
  }

  lemma ReceiveShrinks(b: string)
    ensures ReceiveOne(b).Some? ==> |ReceiveOne(b).value.1| < |b|
  {}

  function ReceiveAll(b: string): (seq<Received>, string)
    decreases |b|
  {
    var one := ReceiveOne(b);
    if one.None? then ([], b)
    else
      ReceiveShrinks(b);
      var (received, rest) := ReceiveAll(one.value.1);
      ([one.value.0] + received, rest)
  }

  // ---------- fields ----------

  lemma SignedSurvives(n: int)
    requires IsInt(n)
    ensures DecodeSigned(EncodeSigned(n)) == n
  {
    LowInt(n % TWO_32, 4);
  }

  /** The upper bytes of a wide integer are those of its upper half. */
  lemma {:induction false} UpperBytes(n: nat, k: nat, j: nat)
    requires j <= k
    ensures EncodeInt(n, k)[j..] == EncodeInt(Shifted(n, j), k - j)
    decreases j
  {
    if j > 0 {
      UpperBytes(n / 256, k - 1, j - 1);
      assert EncodeInt(n, k)[j..] == EncodeInt(n / 256, k - 1)[j - 1..];
    }
  }

  lemma WideSurvives(n: nat)
    requires n < TWO_64
    ensures Decode64(Encode64(n)) == n
  {
    LowBytes(n);
    UpperBytes(n, 8, 4);
    ShiftedFour(n);
    LowInt(n / TWO_32, 4);
    hide Decode32, EncodeInt, Shifted;
  }

  lemma ShiftedFour(n: nat)
    ensures Shifted(n, 4) == n / TWO_32
  {
    var n2 := n / 256 / 256;
    assert Shifted(n, 4) == Shifted(n / 256, 3) == Shifted(n2, 2) == Shifted(n2 / 256, 1) == Shifted(n2 / 256 / 256, 0);
    assert n / 256 / 256 == n / 0x1_0000 && n2 / 256 / 256 == n2 / 0x1_0000;
  }

  lemma BufferHolds(s: string, junk: string, n: nat, m: nat)
    requires '\0' !in s && |s| < m <= n
    ensures CString(Buffer(s, junk, n)[..m]) == s
  {
    var tail := Fill(junk, n - |s| - 1);
    assert Buffer(s, junk, n)[..m] == s + ['\0'] + tail[..m - |s| - 1];
    CStringIs(s, tail[..m - |s| - 1]);
  }

  lemma HeaderParts(p: Packet, tail: string)
    requires MessageOk(p.message)
    ensures
      var b := HeaderBytes(p) + tail;
      && |HeaderBytes(p)| == HEADER && b[HEADER..] == tail
      && Decode64(b[8..16]) == CommandOfMessage(p.message) && b[16..16 + INFO] == InfoOf(p)[..INFO]
  {
    SmallDecode(CommandOfMessage(p.message));
    hide Decode64, Encode64, InfoOf;
    ThreeParts(Encode64(CMD), Encode64(CommandOfMessage(p.message)), InfoOf(p), tail);
  }

  /** The path of a file message is read back from its header. */
  lemma PathIsRead(p: Packet)
    requires MessageOk(p.message) && IsFile(p.message)
    ensures CString(InfoOf(p)[..INFO]) == p.message.path
  {
    BufferHolds(p.message.path, p.padding, INFO + 4, INFO);
  }

  lemma ConnectionFields(c: Connection, junk: string)
    requires ConnectionOk(c)
    ensures
      var b := EncodeConnection(c, junk);
      && b[8..16] == Encode64(c.socketType) && b[16..20] == EncodeSigned(c.device)
      && b[20..20 + NAME] == Buffer(c.user, junk, NAME) && b[120..124] == EncodeSigned(c.clientSocket)
  {
    hide Encode64, EncodeSigned, Buffer, Fill;
  }

  lemma ConnectionSurvives(c: Connection, junk: string)
    requires ConnectionOk(c)
    ensures DecodeConnection(EncodeConnection(c, junk)) == c
  {
    ConnectionFields(c, junk);
    WideSurvives(c.socketType);
    SignedSurvives(c.device);
    SignedSurvives(c.clientSocket);
    BufferHolds(c.user, junk, NAME, NAME);
    hide Decode64, Encode64, EncodeSigned, DecodeSigned, Buffer, EncodeConnection, CString;
    assert Buffer(c.user, junk, NAME)[..NAME] == Buffer(c.user, junk, NAME);
  }

  lemma ExitSurvives(user: string, device: int, junk: string)
    requires UserOk(user) && IsInt(device)
    ensures DecodeExit(EncodeExit(user, device, junk)) == ExitMsg(user, device)
  {
    SignedSurvives(device);
    BufferHolds(user, junk, NAME, NAME);
    hide EncodeSigned, DecodeSigned, Buffer, CString;
    var b := EncodeExit(user, device, junk);
    assert b[..NAME] == Buffer(user, junk, NAME) && b[NAME..NAME + 4] == EncodeSigned(device);
    assert Buffer(user, junk, NAME)[..NAME] == Buffer(user, junk, NAME);
  }

  // ---------- whole and cut messages ----------

  /** A whole message is received as what it says, and nothing behind it is touched. */
  lemma ReceiveWhole(p: Packet, tail: string)
    requires MessageOk(p.message)
    ensures ReceiveOne(Bytes(p) + tail) == Some((Got(p.message), tail))
  {
    var body := BodyBytes(p);
    Associative(HeaderBytes(p), body, tail);
    HeaderParts(p, body + tail);
    SplitAt(body, tail);
    hide Decode64, CString, HeaderBytes, InfoOf, DecodeConnection, DecodeExit, EncodeConnection, EncodeExit, Encode64;
    match p.message
    case UploadMsg(path, payload) =>
      PathIsRead(p);
      Associative(Encode64(|payload|), payload, tail);
      UploadWhole(path, payload, tail);
    case DeleteMsg(path) =>
      PathIsRead(p);
      assert body + tail == tail;
    case InsertMsg(c) =>
      ConnectionSurvives(c, p.more);
    case ExitMsg(user, device) =>
      ExitSurvives(user, device, p.more);
  }

  lemma UploadWhole(name: string, payload: string, tail: string)
    requires |payload| <= INT_MAX
    ensures ReceiveUpload(name, Encode64(|payload|) + (payload + tail)) == Some((Got(UploadMsg(name, payload)), tail))
  {
    SizeSurvives(|payload|);
    SplitAt(Encode64(|payload|), payload + tail);
    SplitAt(payload, tail);
    hide DecodeSize;
  }

  /** A message cut short is not received at all. */
  lemma ReceiveCut(p: Packet, n: nat)
    requires MessageOk(p.message) && n < |Bytes(p)|
    ensures ReceiveOne(Bytes(p)[..n]) == None
  {
    HeaderParts(p, "");
    if n >= HEADER {
      var b, body := Bytes(p)[..n], BodyBytes(p);
      var tail := body[..n - HEADER];
      assert b == HeaderBytes(p) + tail;
      HeaderParts(p, tail);
      hide Decode64, CString, HeaderBytes, InfoOf, DecodeConnection, DecodeExit, EncodeConnection, EncodeExit;
      if p.message.UploadMsg? { UploadCut(CString(b[16..16 + INFO]), p.message.payload, n - HEADER); }
    }
  }

  lemma UploadCut(name: string, payload: string, n: nat)
    requires |payload| <= INT_MAX && n < 8 + |payload|
    ensures ReceiveUpload(name, (Encode64(|payload|) + payload)[..n]) == None
  {
    SizeSurvives(|payload|);
    SplitAt(Encode64(|payload|), payload);
    var rest := (Encode64(|payload|) + payload)[..n];
    if n >= 8 { assert rest[..8] == (Encode64(|payload|) + payload)[..8]; }
    hide DecodeSize;
  }

  // ---------- streams ----------

  ghost predicate AllOk(ps: seq<Packet>) { forall i :: 0 <= i < |ps| ==> MessageOk(ps[i].message) }

  function AllBytes(ps: seq<Packet>): string
    requires AllOk(ps)
  {
    if ps == [] then "" else Bytes(ps[0]) + AllBytes(ps[1..])
  }

  function Messages(ps: seq<Packet>): (ms: seq<Message>)
    ensures |ms| == |ps|
  {
    seq(|ps|, i requires 0 <= i < |ps| => ps[i].message)
  }

  function Gots(ms: seq<Message>): seq<Received> {
    seq(|ms|, i requires 0 <= i < |ms| => Got(ms[i]))
  }

  lemma {:induction false} AllBytesAppend(ps: seq<Packet>, p: Packet)
    requires AllOk(ps) && MessageOk(p.message)
    ensures AllOk(ps + [p]) && AllBytes(ps + [p]) == AllBytes(ps) + Bytes(p)
  {
    hide Bytes, MessageOk;
    if ps == [] {
      assert ps + [p] == [p] && AllBytes([p]) == Bytes(p) + AllBytes([]);
    } else {
      AllBytesAppend(ps[1..], p);
      assert (ps + [p])[0] == ps[0] && (ps + [p])[1..] == ps[1..] + [p];
      Associative(Bytes(ps[0]), AllBytes(ps[1..]), Bytes(p));
    }
  }

  /** Whatever can be made of the bytes behind them, whole messages are received first and as what they say. */
  lemma {:induction false} ReceiveStream(ps: seq<Packet>, behind: string)
    requires AllOk(ps)
    ensures ReceiveAll(AllBytes(ps) + behind) == (Gots(Messages(ps)) + ReceiveAll(behind).0, ReceiveAll(behind).1)
  {
    hide Bytes, MessageOk, ReceiveOne;
    if ps == [] {
      assert AllBytes(ps) + behind == behind && Gots(Messages(ps)) + ReceiveAll(behind).0 == ReceiveAll(behind).0;
    } else {
      var rest := AllBytes(ps[1..]) + behind;
      ReceiveStream(ps[1..], behind);
      Associative(Bytes(ps[0]), AllBytes(ps[1..]), behind);
      ReceiveWhole(ps[0], rest);
      assert ReceiveAll(Bytes(ps[0]) + rest) == ([Got(ps[0].message)] + ReceiveAll(rest).0, ReceiveAll(rest).1);
      var first, more := [Got(ps[0].message)], Gots(Messages(ps[1..]));
      assert Gots(Messages(ps)) == first + more;
      assert first + more + ReceiveAll(behind).0 == first + (more + ReceiveAll(behind).0);
    }
  }
}
