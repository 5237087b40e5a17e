/** What a backup's loop makes of a message in the middle of which another one was written. */
module CrossedBytes {
  import opened Limits
  import opened SessionTable
  import opened Wire
  import opened Disk
  import opened MessageBytes

  /** A message with another one written whole behind its first j bytes. */
  function Spliced(v: Packet, j: nat, p: Packet): string
    requires MessageOk(v.message) && MessageOk(p.message) && j <= |Bytes(v)|
  {
    Bytes(v)[..j] + (Bytes(p) + Bytes(v)[j..])
  }

  // ---------- the parts of a message ----------

  lemma Parts(p: Packet)
    requires MessageOk(p.message)
    ensures |Bytes(p)| == HEADER + |BodyBytes(p)| && Bytes(p)[..HEADER] == HeaderBytes(p) && Bytes(p)[HEADER..] == BodyBytes(p)
    ensures Bytes(p)[..8] == Encode64(CMD) && Bytes(p)[8..16] == Encode64(CommandOfMessage(p.message))
    ensures Bytes(p)[16..HEADER] == InfoOf(p) && Bytes(p)[16..16 + INFO] == InfoOf(p)[..INFO]
  {
    HeaderParts(p, "");
    SplitAt(HeaderBytes(p), BodyBytes(p));
    ThreeViews(Encode64(CMD), Encode64(CommandOfMessage(p.message)), InfoOf(p), BodyBytes(p));
    hide Encode64, InfoOf, BodyBytes;
  }

  lemma ThreeViews(a: string, b: string, c: string, d: string)
    requires |a| == |b| == 8 && |c| == INFO + 4
    ensures
      var s := a + b + c + d;
      s[..8] == a && s[8..16] == b && s[16..HEADER] == c && s[16..16 + INFO] == c[..INFO]
  {}

  /** What the spliced bytes hold at these places. */
  lemma SplicedViews(v: Packet, j: nat, p: Packet, lo: nat, hi: nat)
    requires MessageOk(v.message) && MessageOk(p.message) && j <= |Bytes(v)| && lo <= hi
    ensures |Spliced(v, j, p)| == |Bytes(v)| + |Bytes(p)|
    ensures hi <= j ==> Spliced(v, j, p)[lo..hi] == Bytes(v)[lo..hi]
    ensures j <= lo && hi <= j + |Bytes(p)| ==> Spliced(v, j, p)[lo..hi] == Bytes(p)[lo - j..hi - j]
    ensures
      var r := |Bytes(v)| - j;
      r <= |Bytes(p)| ==> Spliced(v, j, p)[|Bytes(v)|..] == Bytes(p)[r..] + Bytes(v)[j..]
  {
    hide Bytes, MessageOk;
  }

  // ---------- the message behind ----------

  /** The bytes of an unfilled buffer, all the same. */
  function Pad(ch: char): (s: string)
    ensures |s| == INFO + 4 && forall i :: 0 <= i < |s| ==> s[i] == ch
  {
    seq(INFO + 4, _ => ch)
  }

  /** Not the low byte of a command that the loop knows. */
  predicate Plain(ch: char) {
    ch as int != UPLOAD && ch as int != DELETE && ch as int != INSERT_USER && ch as int != EXIT
  }

  /** A round finds no command if the field has another low byte, or an upper byte at i. */
  lemma NotACommand(b: string, i: nat)
    requires |b| >= HEADER && (Plain(b[8]) || (0 < i < 8 && b[8 + i] != '\0'))
    ensures ReceiveOne(b) == Some((Ignored, b[HEADER..]))
  {
    var f := b[8..16];
    assert f[0] == b[8] && (i < 8 ==> f[i] == b[8 + i]);
    OneByte(f);
    hide Decode64;
  }

  /** A number below 256 has one byte. */
  lemma OneByte(f: string)
    requires |f| == 8
    ensures Decode64(f) < 256 ==> f[0] as int == Decode64(f) && forall i :: 0 < i < 8 ==> f[i] == '\0'
  {
    assert f[4..][0] == f[4] && f[4..][1] == f[5] && f[4..][2] == f[6] && f[4..][3] == f[7];
  }

  /** No command is found when a round begins inside the header of a padded message. */
  lemma InsideHeader(p: Packet, ch: char, r: nat, tail: string)
    requires MessageOk(p.message) && p.padding == Pad(ch) && Plain(ch) && ch != '\0' && 0 < r <= 111 && r <= |tail|
    ensures r <= |Bytes(p)|
    ensures
      var one := ReceiveOne(Bytes(p)[r..] + tail);
      one.Some? && one.value.0 == Ignored
  {
    Parts(p);
    var b := Bytes(p)[r..] + tail;
    assert b[8] == Bytes(p)[r + 8];
    if r + 8 < 16 {
      CommandBytes(p);
      assert Bytes(p)[8..16][r] == Bytes(p)[r + 8];
    } else {
      assert InfoOf(p)[r - 8] == Bytes(p)[16..HEADER][r - 8] == Bytes(p)[r + 8];
      InfoIsPlain(p, ch, r - 8);
      if r + 10 < HEADER {
        assert InfoOf(p)[r - 7] == Bytes(p)[16..HEADER][r - 7] == Bytes(p)[r + 9] == b[9];
        assert InfoOf(p)[r - 6] == Bytes(p)[16..HEADER][r - 6] == Bytes(p)[r + 10] == b[10];
      }
    }
    hide Bytes, InfoOf, MessageOk, Pad, ReceiveOne;
    NotACommand(b, if b[9] != '\0' then 1 else 2);
  }

  lemma CommandBytes(p: Packet)
    ensures Encode64(CommandOfMessage(p.message))[0] == CommandOfMessage(p.message) as char
    ensures forall i :: 1 <= i < 8 ==> Encode64(CommandOfMessage(p.message))[i] == '\0'
  {
    ZeroBytes(7);
    var n := CommandOfMessage(p.message);
    assert Encode64(n) == [n as char] + EncodeInt(0, 7);
  }

  lemma InfoIsPlain(p: Packet, ch: char, i: nat)
    requires MessageOk(p.message) && p.padding == Pad(ch) && Plain(ch) && ch != '\0' && i < INFO + 4
    ensures
      var info := InfoOf(p);
      || Plain(info[i])
      || (i + 2 < INFO + 4 && (info[i + 1] != '\0' || info[i + 2] != '\0'))
  {
    match p.message
    case InsertMsg(_) => BufferIsPlain("stringteste", p.padding, i);
    case ExitMsg(_, _) =>
    case UploadMsg(path, _) => BufferIsPlain(path, p.padding, i);
    case DeleteMsg(path) => BufferIsPlain(path, p.padding, i);
  }

  lemma BufferIsPlain(s: string, junk: string, i: nat)
    requires |s| < INFO && '\0' !in s && |junk| == INFO + 4 && i < INFO + 4
    requires forall x :: 0 <= x < |junk| ==> Plain(junk[x]) && junk[x] != '\0'
    ensures
      var info := Buffer(s, junk, INFO + 4);
      || Plain(info[i])
      || (i + 2 < INFO + 4 && (info[i + 1] != '\0' || info[i + 2] != '\0'))
  {
    var info := Buffer(s, junk, INFO + 4);
    if i < |s| {
      if i + 1 < |s| { assert info[i + 1] == s[i + 1]; } else { assert info[i + 2] == junk[0]; }
    } else if i > |s| {
      assert info[i] == junk[i - |s| - 1];
    }
  }

  // ---------- the round that gets to the message ----------

  /** The bytes from which on the length of a message does not depend on what follows. */
  function Settled(m: Message): nat {
    match m
    case UploadMsg(_, _) => HEADER + 8
    case DeleteMsg(_) => 16
    case _ => HEADER
  }

  /** Then the round takes as many bytes as the message has, as a message of its kind. */
  lemma TakesAsMany(v: Packet, j: nat, p: Packet)
    requires MessageOk(v.message) && MessageOk(p.message) && Settled(v.message) <= j <= |Bytes(v)|
    ensures |Bytes(p)| >= HEADER
    ensures TakesMessage(Spliced(v, j, p), v)
  {
    var b, m := Spliced(v, j, p), v.message;
    CommandIsRead(v, j, p);
    hide Spliced, Bytes, ReceiveOne, TakesMessage, MessageOk;
    match m
    case UploadMsg(_, _) =>
      SizeIsRead(v, j, p);
      RoundOfUpload(b, v);
    case DeleteMsg(_) => RoundOfDelete(b, v);
    case _ => RoundOfRecord(b, v);
  }

  predicate TakesMessage(b: string, v: Packet)
    requires MessageOk(v.message)
  {
    var one := ReceiveOne(b);
    && |b| >= |Bytes(v)| && one.Some? && one.value.0.Got? && IsFile(one.value.0.message) == IsFile(v.message)
    && one.value.1 == b[|Bytes(v)|..]
  }

  lemma CommandIsRead(v: Packet, j: nat, p: Packet)
    requires MessageOk(v.message) && MessageOk(p.message) && 16 <= j <= |Bytes(v)|
    ensures |Bytes(p)| >= HEADER && |Spliced(v, j, p)| >= |Bytes(v)|
    ensures |Bytes(v)| == HEADER + |BodyBytes(v)| && Decode64(Spliced(v, j, p)[8..16]) == CommandOfMessage(v.message)
  {
    Parts(v);
    Parts(p);
    SmallDecode(CommandOfMessage(v.message));
    SplicedViews(v, j, p, 8, 16);
    hide Spliced, Bytes, BodyBytes, HeaderBytes, InfoOf, Encode64, Decode64, MessageOk;
  }

  lemma SizeIsRead(v: Packet, j: nat, p: Packet)
    requires MessageOk(v.message) && MessageOk(p.message) && v.message.UploadMsg? && HEADER + 8 <= j <= |Bytes(v)|
    ensures |Spliced(v, j, p)| >= HEADER + 8 && DecodeSize(Spliced(v, j, p)[HEADER..][..8]) == |v.message.payload|
  {
    Parts(v);
    SplicedViews(v, j, p, HEADER, HEADER + 8);
    SizeSurvives(|v.message.payload|);
    assert Bytes(v)[HEADER..HEADER + 8] == BodyBytes(v)[..8] == Encode64(|v.message.payload|);
    hide Spliced, Bytes, BodyBytes, HeaderBytes, InfoOf, Encode64, DecodeSize, MessageOk;
    assert Spliced(v, j, p)[HEADER..][..8] == Spliced(v, j, p)[HEADER..HEADER + 8];
  }

  lemma RoundOfUpload(b: string, v: Packet)
    requires MessageOk(v.message) && v.message.UploadMsg? && |b| >= |Bytes(v)| == HEADER + |BodyBytes(v)|
    requires Decode64(b[8..16]) == UPLOAD && DecodeSize(b[HEADER..][..8]) == |v.message.payload|
    ensures TakesMessage(b, v)
  {
    hide Bytes, Encode64, Decode64, DecodeSize, CString, MessageOk;
    assert b[HEADER..][8..][|v.message.payload|..] == b[|Bytes(v)|..];
  }

  lemma RoundOfDelete(b: string, v: Packet)
    requires MessageOk(v.message) && v.message.DeleteMsg? && |b| >= |Bytes(v)| == HEADER + |BodyBytes(v)|
    requires Decode64(b[8..16]) == DELETE
    ensures TakesMessage(b, v)
  {
    hide Bytes, Decode64, CString, MessageOk;
  }

  lemma RoundOfRecord(b: string, v: Packet)
    requires MessageOk(v.message) && !IsFile(v.message) && |b| >= |Bytes(v)| == HEADER + |BodyBytes(v)|
    requires Decode64(b[8..16]) == CommandOfMessage(v.message)
    ensures TakesMessage(b, v)
  {
    hide Bytes, Decode64, CString, DecodeConnection, EncodeConnection, EncodeExit, DecodeSigned, MessageOk;
    assert b[HEADER..][|Bytes(v)| - HEADER..] == b[|Bytes(v)|..];
  }

  /** In the place of one of the two messages something is received that is neither of them. */
  predicate Deviates(rs: seq<Received>, x: Message, y: Message) {
    || (|rs| > 0 && rs[0] != Got(x) && rs[0] != Got(y))
    || (|rs| > 1 && rs[1] != Got(x) && rs[1] != Got(y))
  }

  lemma FirstReceived(b: string)
    ensures ReceiveOne(b).Some? ==> ReceiveAll(b).0 != [] && ReceiveAll(b).0[0] == ReceiveOne(b).value.0
  {
    hide ReceiveOne;
  }

  lemma SecondReceived(b: string)
    ensures ReceiveOne(b).Some? && ReceiveOne(ReceiveOne(b).value.1).Some? ==>
              |ReceiveAll(b).0| > 1 && ReceiveAll(b).0[1] == ReceiveOne(ReceiveOne(b).value.1).value.0
  {
    hide ReceiveOne;
  }

  /** With few bytes left to write of it, whatever is made of the first message, no command is found behind it. */
  lemma FewLeft(v: Packet, j: nat, p: Packet, ch: char)
    requires MessageOk(v.message) && MessageOk(p.message) && IsFile(v.message) != IsFile(p.message)
    requires p.padding == Pad(ch) && Plain(ch) && ch != '\0' && Settled(v.message) <= j < |Bytes(v)| <= j + 111
    ensures Deviates(ReceiveAll(Spliced(v, j, p)).0, v.message, p.message)
  {
    hide *;
    TakesAsMany(v, j, p);
    SplicedViews(v, j, p, 0, 0);
    InsideHeader(p, ch, |Bytes(v)| - j, Bytes(v)[j..]);
    NothingBehind(Spliced(v, j, p), v, p);
  }

  lemma NothingBehind(b: string, v: Packet, p: Packet)
    requires MessageOk(v.message) && TakesMessage(b, v) && IsFile(v.message) != IsFile(p.message)
    requires
      var one := ReceiveOne(b[|Bytes(v)|..]);
      one.Some? && one.value.0 == Ignored
    ensures Deviates(ReceiveAll(b).0, v.message, p.message)
  {
    FirstReceived(b);
    SecondReceived(b);
    hide Bytes, MessageOk, ReceiveOne, ReceiveAll;
  }

  // ---------- what is received instead ----------

  /** The payload the backup makes of an upload when, with so many bytes written (at least its header), another
      message comes between: if the size was not written yet, one byte, the low byte of that message's command. */
  function CrossedPayload(payload: string, done: nat, other: string): string
    requires |other| >= HEADER && done <= HEADER + 8 + |payload|
  {
    if done < HEADER + 8 then [other[8]]
    else
      var at := done - HEADER - 8;
      payload[..at] + (other + payload[at..])[..|payload| - at]
  }

  /** The upload survives exactly when what was left of it repeats the other message. */
  predicate Mimics(payload: string, done: nat, other: string)
    requires |other| >= HEADER && done <= HEADER + 8 + |payload|
  {
    if done < HEADER + 8 then payload == [other[8]]
    else
      var left := payload[done - HEADER - 8..];
      left == (other + left)[..|left|]
  }

  lemma MimicsExactly(payload: string, done: nat, other: string)
    requires |other| >= HEADER && done <= HEADER + 8 + |payload|
    ensures CrossedPayload(payload, done, other) == payload <==> Mimics(payload, done, other)
  {
    if done >= HEADER + 8 {
      var at := done - HEADER - 8;
      var left := payload[at..];
      assert payload == payload[..at] + left;
      assert CrossedPayload(payload, done, other)[at..] == (other + left)[..|left|];
    }
  }

  /** The other message comes at a boundary of the parts of a message, or inside a payload or a header without a body. */
  predicate Cut(v: Packet, j: nat) {
    match v.message
    case UploadMsg(_, payload) => j == HEADER || HEADER + 8 <= j <= HEADER + 8 + |payload|
    case DeleteMsg(_) => 0 < j < HEADER
    case _ => j == HEADER
  }

  lemma CutFits(v: Packet, j: nat, p: Packet)
    requires MessageOk(v.message) && MessageOk(p.message) && Cut(v, j)
    ensures j <= |Bytes(v)| && |Bytes(p)| >= HEADER
    ensures v.message.UploadMsg? ==> |Bytes(v)| == HEADER + 8 + |v.message.payload|
  {
    Parts(v);
    Parts(p);
    hide Bytes, HeaderBytes, InfoOf, Encode64, RecordBytes;
  }

  /** What a round makes of a message with another one, of the other lock, behind its first j bytes. */
  function Instead(v: Packet, j: nat, p: Packet): Received
    requires MessageOk(v.message) && MessageOk(p.message) && IsFile(v.message) != IsFile(p.message) && Cut(v, j)
    requires j <= |Bytes(v)| && |Bytes(p)| >= HEADER
  {
    var other := Bytes(p);
    match v.message
    case UploadMsg(path, payload) => Got(UploadMsg(path, CrossedPayload(payload, j, other)))
    case DeleteMsg(path) =>
      if j < 16 then Ignored else Got(DeleteMsg(if j - 16 <= |path| then path[..j - 16] + [1 as char] else path))
    case ExitMsg(_, _) => Got(ExitMsg([1 as char], DecodeSigned(other[NAME..NAME + 4])))
    case InsertMsg(_) =>
      var path := InfoOf(p);
      Got(InsertMsg(Connection(CString(path[4..]), DecodeSigned(path[..4]), CommandOfMessage(p.message),
                               DecodeSigned((other + Bytes(v)[j..])[HEADER..HEADER + 4]))))
  }

  lemma ReceiveInstead(v: Packet, j: nat, p: Packet)
    requires MessageOk(v.message) && MessageOk(p.message) && IsFile(v.message) != IsFile(p.message) && Cut(v, j)
    ensures j <= |Bytes(v)| && |Bytes(p)| >= HEADER
    ensures
      var one := ReceiveOne(Spliced(v, j, p));
      one.Some? && one.value.0 == Instead(v, j, p)
  {
    CutFits(v, j, p);
    hide Bytes, ReceiveOne, Spliced, MessageOk, CrossedPayload, DecodeSigned, CString, InfoOf;
    match v.message
    case UploadMsg(_, _) => UploadInstead(v, j, p);
    case DeleteMsg(_) => if j < 16 { CommandCut(v, j, p); } else { NameCut(v, j, p); }
    case ExitMsg(_, _) => ExitInstead(v, p);
    case InsertMsg(_) => InsertInstead(v, p);
  }

  // ---------- a crossed upload ----------

  lemma UploadInstead(v: Packet, j: nat, p: Packet)
    requires MessageOk(v.message) && MessageOk(p.message) && v.message.UploadMsg? && !IsFile(p.message) && Cut(v, j)
    ensures j <= |Bytes(v)| && |Bytes(p)| >= HEADER
    ensures
      var one := ReceiveOne(Spliced(v, j, p));
      one.Some? && one.value.0 == Instead(v, j, p)
  {
    CutFits(v, j, p);
    hide Bytes, ReceiveOne, Spliced, CrossedPayload, MessageOk;
    if j == HEADER {
      BehindHeader(v, p);
      NoPayloadYet(v.message.payload, Bytes(p));
    } else {
      InPayload(v, j, p);
    }
  }

  lemma BehindHeader(v: Packet, p: Packet)
    requires MessageOk(v.message) && MessageOk(p.message) && v.message.UploadMsg?
    ensures HEADER <= |Bytes(v)| && |Bytes(p)| >= HEADER
    ensures
      var one := ReceiveOne(Spliced(v, HEADER, p));
      one.Some? && one.value.0 == Got(UploadMsg(v.message.path, [Bytes(p)[8]]))
  {
    Parts(v);
    Parts(p);
    hide Bytes, ReceiveOne, ReceiveUpload, MessageOk, HeaderBytes, BodyBytes, InfoOf, Encode64;
    HeaderThen(v, Bytes(p) + Bytes(v)[HEADER..]);
    SizeIsCommand(v.message.path, p, Bytes(v)[HEADER..]);
  }

  lemma InPayload(v: Packet, j: nat, p: Packet)
    requires MessageOk(v.message) && MessageOk(p.message) && v.message.UploadMsg? && |Bytes(p)| >= HEADER
    requires HEADER + 8 <= j <= HEADER + 8 + |v.message.payload|
    ensures j <= |Bytes(v)|
    ensures
      var one, m := ReceiveOne(Spliced(v, j, p)), v.message;
      one.Some? && one.value.0 == Got(UploadMsg(m.path, CrossedPayload(m.payload, j, Bytes(p))))
  {
    hide *;
    UploadParts(v);
    SplicedIs(v, j, p);
    var header, size, payload, other := HeaderBytes(v), Encode64(|v.message.payload|), v.message.payload, Bytes(p);
    var at := j - HEADER - 8;
    BodyCut(Bytes(v), header, size, payload, j);
    RegroupCut(header, size, payload[..at], other, payload[at..]);
    HeaderThen(v, size + (payload[..at] + (other + payload[at..])));
    PayloadCrossed(v.message.path, payload, at, other);
  }

  lemma UploadParts(p: Packet)
    requires MessageOk(p.message) && p.message.UploadMsg?
    ensures Bytes(p) == HeaderBytes(p) + (Encode64(|p.message.payload|) + p.message.payload)
    ensures |HeaderBytes(p)| == HEADER && |Encode64(|p.message.payload|)| == 8 && |p.message.payload| <= INT_MAX
    ensures |Bytes(p)| == HEADER + 8 + |p.message.payload|
  {
    HeaderParts(p, "");
    hide HeaderBytes, Encode64;
  }

  lemma Window(a: string, b: string, n: nat, lo: nat, hi: nat)
    requires lo <= hi <= n <= |a + b| && hi <= |a|
    ensures (a + b)[..n][lo..hi] == a[lo..hi]
  {}

  lemma NoPayloadYet(payload: string, other: string)
    requires |other| >= HEADER
    ensures CrossedPayload(payload, HEADER, other) == [other[8]]
  {}

  lemma BodyCut(all: string, header: string, size: string, payload: string, j: nat)
    requires |header| == HEADER && |size| == 8 && all == header + (size + payload)
    requires HEADER + 8 <= j <= HEADER + 8 + |payload|
    ensures
      var at := j - HEADER - 8;
      all[..j] == header + (size + payload[..at]) && all[j..] == payload[at..]
  {}

  lemma RegroupCut(header: string, size: string, part: string, other: string, rest: string)
    ensures header + (size + part) + (other + rest) == header + (size + (part + (other + rest)))
  {
    Associative(header, size + part, other + rest);
    Associative(size, part, other + rest);
  }

  /** A round of the loop after the header of an upload. */
  lemma HeaderThen(p: Packet, behind: string)
    requires MessageOk(p.message) && p.message.UploadMsg?
    ensures ReceiveOne(HeaderBytes(p) + behind) == ReceiveUpload(p.message.path, behind)
  {
    HeaderParts(p, behind);
    PathIsRead(p);
    hide HeaderBytes, InfoOf, Decode64, CString, ReceiveUpload, MessageOk;
  }

  /** The other message's packet type is taken for the size. */
  lemma SizeIsCommand(path: string, p: Packet, tail: string)
    requires MessageOk(p.message)
    ensures |Bytes(p)| >= HEADER
    ensures
      var one := ReceiveUpload(path, Bytes(p) + tail);
      one.Some? && one.value.0 == Got(UploadMsg(path, [Bytes(p)[8]]))
  {
    Parts(p);
    SizeSurvives(CMD);
    var b := Bytes(p) + tail;
    hide DecodeSize, Bytes, HeaderBytes, BodyBytes, InfoOf, EncodeInt;
    assert b[..8] == Bytes(p)[..8];
    assert b[8..][..1] == [b[8]] == [Bytes(p)[8]];
  }

  lemma PayloadCrossed(path: string, payload: string, at: nat, other: string)
    requires at <= |payload| <= INT_MAX && |other| >= HEADER
    ensures
      var one := ReceiveUpload(path, Encode64(|payload|) + (payload[..at] + (other + payload[at..])));
      one.Some? && one.value.0 == Got(UploadMsg(path, CrossedPayload(payload, HEADER + 8 + at, other)))
  {
    SizeSurvives(|payload|);
    var behind := payload[..at] + (other + payload[at..]);
    SplitAt(Encode64(|payload|), behind);
    hide DecodeSize, EncodeInt;
    assert behind[..|payload|] == payload[..at] + (other + payload[at..])[..|payload| - at];
  }

  // ---------- a crossed delete ----------

  /** Inside the packet type or the command. */
  lemma CommandCut(v: Packet, j: nat, p: Packet)
    requires MessageOk(v.message) && MessageOk(p.message) && v.message.DeleteMsg? && 0 < j < 16
    ensures j <= |Bytes(v)|
    ensures
      var one := ReceiveOne(Spliced(v, j, p));
      one.Some? && one.value.0 == Ignored
  {
    Parts(v);
    Parts(p);
    CommandBytes(v);
    TypeBytes();
    var b := Spliced(v, j, p);
    hide Encode64, InfoOf, HeaderBytes, BodyBytes, ReceiveOne, MessageOk;
    if j <= 8 {
      assert b[8] == Bytes(p)[8 - j];
      assert Bytes(p)[..8][8 - j] == Bytes(p)[8 - j] || j == 0;
      NotACommand(b, 0);
    } else {
      assert b[j] == Bytes(p)[0] == Bytes(p)[..8][0];
      NotACommand(b, j - 8);
    }
  }

  lemma TypeBytes()
    ensures Encode64(CMD)[0] == 1 as char && forall i :: 1 <= i < 8 ==> Encode64(CMD)[i] == '\0'
  {
    ZeroBytes(7);
    assert Encode64(CMD) == [CMD as char] + EncodeInt(0, 7);
  }

  /** Inside the name, or behind it. */
  lemma NameCut(v: Packet, j: nat, p: Packet)
    requires MessageOk(v.message) && MessageOk(p.message) && v.message.DeleteMsg? && 16 <= j < HEADER
    ensures j <= |Bytes(v)|
    ensures
      var one, path := ReceiveOne(Spliced(v, j, p)), v.message.path;
      && one.Some?
      && one.value.0 == Got(DeleteMsg(if j - 16 <= |path| then path[..j - 16] + [1 as char] else path))
  {
    Parts(v);
    CommandIsRead(v, j, p);
    NameBytes(v, j, p);
    var path, b := v.message.path, Spliced(v, j, p);
    var name := b[16..16 + INFO];
    hide Bytes, BodyBytes, HeaderBytes, CString, InfoOf, Spliced, MessageOk, Encode64, Decode64;
    if j - 16 <= |path| { CutName(path[..j - 16], name); } else { CStringIs(path, name[|path| + 1..]); }
  }

  lemma NameBytes(v: Packet, j: nat, p: Packet)
    requires MessageOk(v.message) && MessageOk(p.message) && v.message.DeleteMsg? && 16 <= j < HEADER
    ensures j <= |Bytes(v)| && |Spliced(v, j, p)| >= HEADER
    ensures
      var name, path, n := Spliced(v, j, p)[16..16 + INFO], v.message.path, j - 16;
      && |path| < INFO
      && (n <= |path| ==> name[..n] == path[..n] && name[n] == 1 as char && (n + 1 < INFO ==> name[n + 1] == '\0'))
      && (n > |path| ==> name == path + ['\0'] + name[|path| + 1..])
  {
    Parts(v);
    Parts(p);
    TypeBytes();
    var path, n := v.message.path, j - 16;
    assert InfoOf(v)[..|path|] == path && InfoOf(v)[|path|] == '\0';
    hide *;
    SplicedIs(v, j, p);
    NameOf(Bytes(v), InfoOf(v), path, j, Bytes(p));
  }

  lemma SplicedIs(v: Packet, j: nat, p: Packet)
    requires MessageOk(v.message) && MessageOk(p.message) && j <= |Bytes(v)|
    ensures Spliced(v, j, p) == Bytes(v)[..j] + (Bytes(p) + Bytes(v)[j..])
  {}

  lemma NameOf(all: string, info: string, path: string, j: nat, other: string)
    requires |all| >= HEADER && all[16..HEADER] == info && |path| < INFO && info[..|path|] == path && info[|path|] == '\0'
    requires 16 <= j < HEADER && |other| >= HEADER && other[..8][0] == 1 as char && other[..8][1] == '\0'
    ensures
      var b := all[..j] + (other + all[j..]);
      var name, n := b[16..16 + INFO], j - 16;
      && (n <= |path| ==> name[..n] == path[..n] && name[n] == 1 as char && (n + 1 < INFO ==> name[n + 1] == '\0'))
      && (n > |path| ==> name == path + ['\0'] + name[|path| + 1..])
  {
    var b := all[..j] + (other + all[j..]);
    var name, n := b[16..16 + INFO], j - 16;
    assert forall i :: 0 <= i < n && i < INFO ==> name[i] == info[i];
    assert forall i :: 0 <= i < |path| ==> info[i] == path[i];
    assert n > |path| ==> name[..|path|] == path && name[|path|] == '\0';
  }

  lemma CutName(s: string, name: string)
    requires '\0' !in s && |s| < |name| && name[..|s|] == s && name[|s|] == 1 as char
    requires |s| + 1 < |name| ==> name[|s| + 1] == '\0'
    ensures CString(name) == s + [1 as char]
  {
    var tail := name[|s| + 1..];
    assert name == s + [1 as char] + tail;
    CStringPrefix(s + [1 as char], tail);
  }

  // ---------- a crossed exit or login ----------

  /** The bytes behind the header are taken for the record. */
  lemma RecordIs(v: Packet, p: Packet, n: nat)
    requires MessageOk(v.message) && MessageOk(p.message) && !IsFile(v.message) && n == |RecordBytes(v)|
    ensures HEADER <= |Bytes(v)| && |Bytes(p)| >= HEADER
    ensures
      var b, all := Spliced(v, HEADER, p), Bytes(p) + Bytes(v)[HEADER..];
      && |b| >= HEADER + n && |all| >= n && b[HEADER..][..n] == all[..n]
      && Decode64(b[8..16]) == CommandOfMessage(v.message)
  {
    Parts(v);
    Parts(p);
    SmallDecode(CommandOfMessage(v.message));
    SplicedViews(v, HEADER, p, 8, 16);
    hide Bytes, HeaderBytes, InfoOf, RecordBytes, MessageOk, Encode64, Decode64;
    assert Spliced(v, HEADER, p)[HEADER..] == Bytes(p) + Bytes(v)[HEADER..];
  }

  lemma ExitInstead(v: Packet, p: Packet)
    requires MessageOk(v.message) && MessageOk(p.message) && v.message.ExitMsg?
    ensures HEADER <= |Bytes(v)| && |Bytes(p)| >= HEADER
    ensures
      var one := ReceiveOne(Spliced(v, HEADER, p));
      one.Some? && one.value.0 == Got(ExitMsg([1 as char], DecodeSigned(Bytes(p)[NAME..NAME + 4])))
  {
    RecordIs(v, p, EXIT_RECORD);
    Parts(p);
    TypeBytes();
    var b, all := Spliced(v, HEADER, p), Bytes(p) + Bytes(v)[HEADER..];
    var record := all[..EXIT_RECORD];
    hide Bytes, Spliced, HeaderBytes, InfoOf, BodyBytes, Encode64, Decode64, DecodeSigned, CString, MessageOk;
    assert record[..NAME][..0] == "" && record[..NAME][0] == Bytes(p)[..8][0] && record[..NAME][1] == Bytes(p)[..8][1];
    CutName("", record[..NAME]);
    assert CString(record[..NAME]) == [1 as char];
    Window(Bytes(p), Bytes(v)[HEADER..], EXIT_RECORD, NAME, NAME + 4);
  }

  lemma InsertInstead(v: Packet, p: Packet)
    requires MessageOk(v.message) && MessageOk(p.message) && v.message.InsertMsg? && IsFile(p.message)
    ensures HEADER <= |Bytes(v)| && |Bytes(p)| >= HEADER
    ensures
      var one := ReceiveOne(Spliced(v, HEADER, p));
      one.Some? && one.value.0 == Instead(v, HEADER, p)
  {
    RecordIs(v, p, CONNECTION);
    ConnectionViews(v, p);
    SmallDecode(CommandOfMessage(p.message));
    hide Bytes, Spliced, InfoOf, Encode64, Decode64, DecodeSigned, CString, MessageOk;
  }

  lemma ConnectionViews(v: Packet, p: Packet)
    requires MessageOk(v.message) && MessageOk(p.message) && v.message.InsertMsg?
    ensures HEADER <= |Bytes(v)| && |Bytes(p)| >= HEADER && |Bytes(p) + Bytes(v)[HEADER..]| >= HEADER + CONNECTION
    ensures
      var all := Bytes(p) + Bytes(v)[HEADER..];
      var record := all[..CONNECTION];
      && record[8..16] == Encode64(CommandOfMessage(p.message)) && record[16..20] == InfoOf(p)[..4]
      && record[20..20 + NAME] == InfoOf(p)[4..] && record[120..124] == all[HEADER..HEADER + 4]
  {
    Parts(v);
    Parts(p);
    var all, info := Bytes(p) + Bytes(v)[HEADER..], InfoOf(p);
    hide Bytes, InfoOf, BodyBytes, HeaderBytes, Encode64, MessageOk;
    assert all[..CONNECTION][16..20] == Bytes(p)[16..HEADER][..4];
    assert all[..CONNECTION][20..20 + NAME] == Bytes(p)[16..HEADER][4..];
  }

  // ---------- when it is the message all the same ----------

  /** There is a slash behind the first four characters, as in every stored path. */
  predicate Deep(path: string) { |path| > 4 && '/' in path[4..] }

  predicate Survives(v: Packet, j: nat, p: Packet)
    requires MessageOk(v.message) && MessageOk(p.message) && Cut(v, j) && |Bytes(p)| >= HEADER
  {
    match v.message
    case UploadMsg(_, payload) => Mimics(payload, j, Bytes(p))
    case DeleteMsg(path) => j >= 16 && (j - 16 > |path| || path == path[..j - 16] + [1 as char])
    case ExitMsg(user, device) => user == [1 as char] && device == DecodeSigned(Bytes(p)[NAME..NAME + 4])
    case InsertMsg(_) => false
  }

  /** A crossed login is never one of the user's: the name is the end of a path. */
  lemma InsertedUser(p: Packet)
    requires MessageOk(p.message) && IsFile(p.message) && Deep(p.message.path)
    ensures CString(InfoOf(p)[4..]) == p.message.path[4..] && '/' in CString(InfoOf(p)[4..])
  {
    var path := p.message.path;
    var rest := Fill(p.padding, INFO + 4 - |path| - 1);
    assert InfoOf(p) == path + ['\0'] + rest;
    assert InfoOf(p)[4..] == path[4..] + ['\0'] + rest;
    CStringIs(path[4..], rest);
    hide InfoOf;
  }

  lemma SurvivesExactly(v: Packet, j: nat, p: Packet)
    requires MessageOk(v.message) && MessageOk(p.message) && IsFile(v.message) != IsFile(p.message) && Cut(v, j)
    requires IsFile(p.message) ==> Deep(p.message.path)
    ensures j <= |Bytes(v)| && |Bytes(p)| >= HEADER
    ensures Instead(v, j, p) == Got(v.message) <==> Survives(v, j, p)
  {
    CutFits(v, j, p);
    match v.message
    case UploadMsg(_, payload) => MimicsExactly(payload, j, Bytes(p));
    case InsertMsg(_) => InsertedUser(p);
    case _ =>
    hide Bytes, InfoOf, CString, DecodeSigned, CrossedPayload, Mimics;
  }

  lemma Deviation(v: Packet, j: nat, p: Packet)
    requires MessageOk(v.message) && MessageOk(p.message) && IsFile(v.message) != IsFile(p.message) && Cut(v, j)
    requires IsFile(p.message) ==> Deep(p.message.path)
    requires |Bytes(p)| >= HEADER && !Survives(v, j, p)
    ensures j <= |Bytes(v)| && Deviates(ReceiveAll(Spliced(v, j, p)).0, v.message, p.message)
  {
    ReceiveInstead(v, j, p);
    SurvivesExactly(v, j, p);
    FirstReceived(Spliced(v, j, p));
    hide Bytes, Spliced, ReceiveOne, ReceiveAll, InfoOf, CString, DecodeSigned, CrossedPayload, Survives, MessageOk;
  }

  // ---------- padding that makes it go wrong ----------

  /** Places at which it goes wrong for some padding of the other message. */
  predicate Breakable(v: Packet, j: nat) {
    match v.message
    case UploadMsg(_, payload) => HEADER + 8 <= j < HEADER + 8 + |payload| || (j == HEADER && payload == "")
    case DeleteMsg(_) => 0 < j < HEADER
    case InsertMsg(_) => j == HEADER || HEADER + 16 < j < HEADER + CONNECTION
    case ExitMsg(_, _) => HEADER <= j < HEADER + EXIT_RECORD
  }

  lemma SomePadding(v: Packet, j: nat, m: Message) returns (padding: string)
    requires MessageOk(v.message) && MessageOk(m) && IsFile(v.message) != IsFile(m) && (IsFile(m) ==> Deep(m.path))
    requires Breakable(v, j)
    ensures j <= |Bytes(v)| && Deviates(ReceiveAll(Spliced(v, j, Packet(m, padding, ""))).0, v.message, m)
  {
    padding := Pad('x');
    Length(v);
    Length(Packet(m, padding, ""));
    hide Bytes, Spliced, ReceiveAll, Deviates, MessageOk, Pad, Deep, Survives;
    match v.message
    case UploadMsg(_, payload) =>
      if j == HEADER || |Bytes(v)| - j > 111 { padding := UploadPadding(v, j, m); }
      else { FewLeft(v, j, Packet(m, padding, ""), 'x'); }
    case DeleteMsg(_) =>
      if j < 16 { EarlyDelete(v, j, Packet(m, padding, "")); } else { FewLeft(v, j, Packet(m, padding, ""), 'x'); }
    case InsertMsg(_) =>
      if j == HEADER { NoLogin(v, Packet(m, padding, "")); } else { FewLeft(v, j, Packet(m, padding, ""), 'x'); }
    case ExitMsg(_, _) => FewLeft(v, j, Packet(m, padding, ""), 'x');
  }

  lemma Length(v: Packet)
    requires MessageOk(v.message)
    ensures v.message.UploadMsg? ==> |Bytes(v)| == HEADER + 8 + |v.message.payload|
    ensures v.message.DeleteMsg? ==> |Bytes(v)| == HEADER
    ensures v.message.InsertMsg? ==> |Bytes(v)| == HEADER + CONNECTION
    ensures v.message.ExitMsg? ==> |Bytes(v)| == HEADER + EXIT_RECORD
    ensures |Bytes(v)| >= HEADER
  {
    HeaderParts(v, "");
    hide HeaderBytes, EncodeConnection, EncodeExit, Encode64;
  }

  lemma NoLogin(v: Packet, p: Packet)
    requires MessageOk(v.message) && MessageOk(p.message) && v.message.InsertMsg? && IsFile(p.message) && Deep(p.message.path)
    ensures HEADER <= |Bytes(v)| && Deviates(ReceiveAll(Spliced(v, HEADER, p)).0, v.message, p.message)
  {
    Length(p);
    hide Bytes, Spliced, ReceiveAll, Deviates, MessageOk;
    Deviation(v, HEADER, p);
  }

  lemma EarlyDelete(v: Packet, j: nat, p: Packet)
    requires MessageOk(v.message) && MessageOk(p.message) && v.message.DeleteMsg? && !IsFile(p.message) && 0 < j < 16
    ensures j <= |Bytes(v)| && Deviates(ReceiveAll(Spliced(v, j, p)).0, v.message, p.message)
  {
    Length(p);
    hide Bytes, Spliced, ReceiveAll, Deviates, MessageOk;
    Deviation(v, j, p);
  }

  /** An upload of which much is left, or all but the header, and there is no payload. */
  lemma UploadPadding(v: Packet, j: nat, m: Message) returns (padding: string)
    requires MessageOk(v.message) && MessageOk(m) && v.message.UploadMsg? && !IsFile(m)
    requires
      var payload := v.message.payload;
      (j == HEADER && payload == "") || (HEADER + 8 <= j && j + 111 < HEADER + 8 + |payload|)
    ensures j <= |Bytes(v)| && Deviates(ReceiveAll(Spliced(v, j, Packet(m, padding, ""))).0, v.message, m)
  {
    var payload := v.message.payload;
    var ch := if j >= HEADER + 8 && payload[j - HEADER - 8 + 28] == 'x' then 'y' else 'x';
    padding := Pad(ch);
    var p := Packet(m, padding, "");
    PaddingShows(p, ch);
    if j >= HEADER + 8 { OtherBytes(payload, j, Bytes(p), ch); }
    hide Bytes, Spliced, ReceiveAll, Deviates, MessageOk, Pad;
    Deviation(v, j, p);
  }

  lemma PaddingShows(p: Packet, ch: char)
    requires MessageOk(p.message) && !IsFile(p.message) && p.padding == Pad(ch)
    ensures |Bytes(p)| >= HEADER && Bytes(p)[28] == ch
  {
    Parts(p);
    hide Bytes, HeaderBytes, BodyBytes, Encode64, MessageOk;
    assert Bytes(p)[28] == Bytes(p)[16..HEADER][12];
  }

  lemma OtherBytes(payload: string, j: nat, other: string, ch: char)
    requires |other| >= HEADER && other[28] == ch && HEADER + 8 <= j && j + 111 < HEADER + 8 + |payload|
    requires payload[j - HEADER - 8 + 28] != ch
    ensures !Mimics(payload, j, other)
  {
    var left := payload[j - HEADER - 8..];
    assert left[28] == payload[j - HEADER - 8 + 28] && (other + left)[..|left|][28] == other[28];
  }
}
