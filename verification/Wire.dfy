/** Bytes on a socket: integers, chunks and command frames. A byte is a char. */
module Wire {
  import opened Limits

  const INT_MAX := 0x7fff_ffff
  const TWO_32 := 0x1_0000_0000
  const TWO_64 := 0x1_0000_0000_0000_0000

  // ---------- integers ----------

  /** An unsigned integer of k bytes in memory, least significant byte first. */
  function EncodeInt(n: nat, k: nat): (b: string)
    ensures |b| == k
  {
    if k == 0 then "" else [(n % 256) as char] + EncodeInt(n / 256, k - 1)
  }

  function Encode64(n: nat): (b: string)
    ensures |b| == 8
  {
    EncodeInt(n, 8)
  }

  function Decode32(b: string): nat
    requires |b| >= 4
  {
    b[0] as int + 0x100 * b[1] as int + 0x1_0000 * b[2] as int + 0x100_0000 * b[3] as int
  }

  function Decode64(b: string): nat
    requires |b| == 8
  {
    Decode32(b) + TWO_32 * Decode32(b[4..])
  }

  /** Conversion to a 32-bit int. */
  function ToInt32(n: int): int {
    var low := n % TWO_32;
    if low > INT_MAX then low - TWO_32 else low
  }

  predicate IsInt(n: int) { -INT_MAX - 1 <= n <= INT_MAX }

  /** Conversion of an int to uint64_t. */
  function ToUint64(n: int): nat {
    n % TWO_64
  }

  /** The size field as the receiver reads it: only an int of its eight bytes, widened again. */
  function DecodeSize(b: string): nat
    requires |b| == 8
  {
    ToUint64(ToInt32(Decode32(b)))
  }

  /** n without its j lowest bytes. */
  function Shifted(n: nat, j: nat): nat { if j == 0 then n else Shifted(n / 256, j - 1) }

  lemma {:induction false} ByteAt(n: nat, k: nat, i: nat)
    requires i < k
    ensures EncodeInt(n, k)[i] as int == Shifted(n, i) % 256
  {
    if i > 0 { ByteAt(n / 256, k - 1, i - 1); }
  }

  lemma ModIs(n: nat, q: nat, r: nat)
    requires n == r + TWO_32 * q && r < TWO_32
    ensures n % TWO_32 == r
  {}

  lemma Digits(n: nat, n1: nat, n2: nat, n3: nat, n4: nat)
    requires n1 == n / 256 && n2 == n1 / 256 && n3 == n2 / 256 && n4 == n3 / 256
    ensures n % 256 + 0x100 * (n1 % 256) + 0x1_0000 * (n2 % 256) + 0x100_0000 * (n3 % 256) == n % TWO_32
  {
    var r := n % 256 + 0x100 * (n1 % 256) + 0x1_0000 * (n2 % 256) + 0x100_0000 * (n3 % 256);
    assert n == n % 256 + 256 * n1 && n1 == n1 % 256 + 256 * n2;
    assert n2 == n2 % 256 + 256 * n3 && n3 == n3 % 256 + 256 * n4;
    ModIs(n, n4, r);
  }

  /** The first four bytes hold the low 32 bits. */
  lemma LowInt(n: nat, k: nat)
    requires k >= 4
    ensures Decode32(EncodeInt(n, k)) == n % TWO_32
  {
    ByteAt(n, k, 0);
    ByteAt(n, k, 1);
    ByteAt(n, k, 2);
    ByteAt(n, k, 3);
    var n1 := n / 256;
    var n2 := n1 / 256;
    var n3 := n2 / 256;
    assert Shifted(n, 1) == n1 && Shifted(n, 2) == Shifted(n1, 1) == n2 && Shifted(n, 3) == Shifted(n1, 2) == Shifted(n2, 1) == n3;
    Digits(n, n1, n2, n3, n3 / 256);
    hide EncodeInt, Shifted;
  }

  lemma LowBytes(n: nat)
    ensures Decode32(Encode64(n)) == n % TWO_32
  {
    LowInt(n, 8);
  }

  lemma Widened(n: nat)
    requires n < TWO_64
    ensures ToUint64(ToInt32(n % TWO_32)) == n <==> n <= INT_MAX || n >= TWO_64 - INT_MAX - 1
  {}

  /** A size survives the trip exactly when it fits an int, or is so large that it looks like a negative one. */
  lemma SizeSurvives(n: nat)
    requires n < TWO_64
    ensures DecodeSize(Encode64(n)) == n <==> n <= INT_MAX || n >= TWO_64 - INT_MAX - 1
  {
    LowBytes(n);
    Widened(n);
  }

  lemma {:induction false} ZeroBytes(k: nat)
    ensures forall i :: 0 <= i < k ==> EncodeInt(0, k)[i] == '\0'
  {
    if k > 0 { ZeroBytes(k - 1); }
  }

  lemma SmallDecode(n: nat)
    requires n < 256
    ensures Decode64(Encode64(n)) == n
  {
    ZeroBytes(7);
    assert Encode64(n) == [n as char] + EncodeInt(0, 7);
  }

  // ---------- chunks ----------

  /** How many bytes the next read or write takes; both arguments are ints. */
  function ChunkSize(total: nat, done: int): int {
    if ToInt32(total) - done >= BUFFER_SIZE then BUFFER_SIZE else ToInt32(total) - done
  }

  /** The first chunk has a size at all exactly when the total is not negative as an int. */
  lemma FirstChunk(total: nat)
    requires total < TWO_64
    ensures ChunkSize(total, 0) >= 0 <==> total % TWO_32 <= INT_MAX
    ensures total <= INT_MAX ==> ChunkSize(total, 0) == if total >= BUFFER_SIZE then BUFFER_SIZE else total
  {}

  /** The writes of the do-while loop that sends a payload; an empty payload is one empty write. */
  function Chunks(data: string): (cs: seq<string>)
    ensures cs != []
    decreases |data|
  {
    if |data| <= BUFFER_SIZE then [data] else [data[..BUFFER_SIZE]] + Chunks(data[BUFFER_SIZE..])
  }

  function Flat(cs: seq<string>): string {
    if cs == [] then "" else cs[0] + Flat(cs[1..])
  }

  lemma {:induction false} ChunksFlat(data: string)
    ensures Flat(Chunks(data)) == data
    decreases |data|
  {
    if |data| > BUFFER_SIZE {
      ChunksFlat(data[BUFFER_SIZE..]);
      assert Chunks(data)[1..] == Chunks(data[BUFFER_SIZE..]);
    }
  }

  lemma {:induction false} FlatConcat(a: seq<string>, b: seq<string>)
    ensures Flat(a + b) == Flat(a) + Flat(b)
  {
    if a == [] {
      assert a + b == b;
    } else {
      FlatConcat(a[1..], b);
      assert (a + b)[0] == a[0] && (a + b)[1..] == a[1..] + b;
      Associative(a[0], Flat(a[1..]), Flat(b));
    }
  }

  // ---------- command frames ----------

  const CMD := 1
  const UPLOAD := 2
  const DOWNLOAD := 3
  const DELETE := 4
  const EXIT := 8
  const HEADER := 120
  const INFO := 100

  /** A commandPacket followed, for an upload, by its size and payload. The rest of the name's
      buffer and the padding are whatever was in memory. */
  datatype Frame = Frame(command: nat, name: string, rest: string, payload: string)

  datatype Command = Put(name: string, payload: string) | Remove(name: string) | Unknown

  ghost predicate FrameOk(f: Frame) {
    && (f.command == UPLOAD || f.command == DELETE)
    && '\0' !in f.name && |f.name| < INFO
    && |f.name| + 1 + |f.rest| == INFO + 4
    && |f.payload| <= INT_MAX
  }

  function Header(f: Frame): string {
    Encode64(CMD) + Encode64(f.command) + f.name + ['\0'] + f.rest
  }

  function Encode(f: Frame): string {
    Header(f) + if f.command == UPLOAD then Encode64(|f.payload|) + f.payload else ""
  }

  /** The writes that put a frame on a socket. */
  function Writes(f: Frame): seq<string> {
    Chunks(Header(f)) + if f.command == UPLOAD then [Encode64(|f.payload|)] + Chunks(f.payload) else []
  }

  function CommandOf(f: Frame): Command {
    if f.command == UPLOAD then Put(f.name, f.payload) else Remove(f.name)
  }

  /** A C string: the bytes before the first NUL. */
  function CString(b: string): (s: string)
    ensures |s| <= |b| && s == b[..|s|] && '\0' !in s
    ensures |s| < |b| ==> b[|s|] == '\0'
  {
    if b == "" || b[0] == '\0' then "" else [b[0]] + CString(b[1..])
  }

  lemma {:induction false} CStringIs(s: string, tail: string)
    requires '\0' !in s
    ensures CString(s + ['\0'] + tail) == s
  {
    var b := s + ['\0'] + tail;
    if s != "" {
      CStringIs(s[1..], tail);
      assert b[1..] == s[1..] + ['\0'] + tail;
    }
  }

  /** A buffer that begins with s holds s exactly when s is followed by NUL or fills it. */
  lemma {:induction false} CStringPrefix(s: string, tail: string)
    requires '\0' !in s
    ensures CString(s + tail) == s <==> tail == "" || tail[0] == '\0'
  {
    var b := s + tail;
    if s == "" {
      assert b == tail;
    } else {
      CStringPrefix(s[1..], tail);
      assert b[1..] == s[1..] + tail && b[0] == s[0];
      assert s == [s[0]] + s[1..];
    }
  }

  /** One pass of the client's receive loop over the bytes it has: the command and what is left,
      or None when the next read would block. */
  function DecodeOne(b: string): Option<(Command, string)> {
    if |b| < HEADER then None
    else
      var command := Decode64(b[8..16]);
      var name := CString(b[16..16 + INFO]);
      if command == DELETE then Some((Remove(name), b[HEADER..]))
      else if command != UPLOAD then Some((Unknown, b[HEADER..]))
      else if |b| < HEADER + 8 then None
      else
        var size := DecodeSize(b[HEADER..HEADER + 8]);
        if |b| < HEADER + 8 + size then None
        else Some((Put(name, b[HEADER + 8..][..size]), b[HEADER + 8 + size..]))
  }

  function DecodeAll(b: string): (seq<Command>, string)
    decreases |b|
  {
    var one := DecodeOne(b);
    if one.None? then ([], b)
    else
      var (commands, rest) := DecodeAll(one.value.1);
      ([one.value.0] + commands, rest)
  }

  lemma WritesFlat(f: Frame)
    ensures Flat(Writes(f)) == Encode(f)
  {
    ChunksFlat(Header(f));
    if f.command == UPLOAD {
      ChunksFlat(f.payload);
      FlatConcat([Encode64(|f.payload|)], Chunks(f.payload));
      FlatConcat(Chunks(Header(f)), [Encode64(|f.payload|)] + Chunks(f.payload));
    } else {
      assert Writes(f) == Chunks(Header(f));
    }
  }

  lemma ThreeParts(a: string, b: string, c: string, tail: string)
    requires |a| == 8 && |b| == 8 && |c| == INFO + 4
    ensures
      var all := a + b + c + tail;
      && |a + b + c| == HEADER && all[8..16] == b && all[16..16 + INFO] == c[..INFO] && all[HEADER..] == tail
  {}

  lemma HeaderFields(f: Frame, tail: string)
    requires FrameOk(f)
    ensures
      var b := Header(f) + tail;
      && |Header(f)| == HEADER && b[HEADER..] == tail
      && Decode64(b[8..16]) == f.command && CString(b[16..16 + INFO]) == f.name
  {
    var info := f.name + ['\0'] + f.rest;
    SmallDecode(f.command);
    CStringIs(f.name, f.rest[..INFO - 1 - |f.name|]);
    assert info[..INFO] == f.name + ['\0'] + f.rest[..INFO - 1 - |f.name|];
    hide Decode64, CString, Encode64, EncodeInt;
    assert Header(f) == Encode64(CMD) + Encode64(f.command) + info by {
      Associative(Encode64(CMD) + Encode64(f.command), f.name, ['\0']);
      Associative(Encode64(CMD) + Encode64(f.command), f.name + ['\0'], f.rest);
    }
    ThreeParts(Encode64(CMD), Encode64(f.command), info, tail);
  }

  /** A whole frame is decoded to what it says, and nothing behind it is touched. */
  lemma DecodeWhole(f: Frame, tail: string)
    requires FrameOk(f)
    ensures DecodeOne(Encode(f) + tail) == Some((CommandOf(f), tail))
  {
    var b := Encode(f) + tail;
    var more := if f.command == UPLOAD then Encode64(|f.payload|) + f.payload else "";
    Associative(Header(f), more, tail);
    HeaderFields(f, more + tail);
    SizeSurvives(|f.payload|);
    hide Decode64, DecodeSize, CString, Header, EncodeInt;
    if f.command == UPLOAD {
      Associative(Encode64(|f.payload|), f.payload, tail);
      SplitAt(Encode64(|f.payload|), f.payload + tail);
      SplitAt(f.payload, tail);
      SliceTwice(b, HEADER, 8, |f.payload|);
    } else {
      assert more + tail == tail;
    }
  }

  /** A frame cut short is not decoded at all. */
  lemma DecodeCut(f: Frame, n: nat)
    requires FrameOk(f) && n < |Encode(f)|
    ensures DecodeOne(Encode(f)[..n]) == None
  {
    HeaderFields(f, "");
    SizeSurvives(|f.payload|);
    hide Decode64, DecodeSize, CString, Header, EncodeInt;
    if n >= HEADER {
      var b, body := Encode(f)[..n], Encode64(|f.payload|) + f.payload;
      var tail := body[..n - HEADER];
      assert b == Header(f) + tail;
      HeaderFields(f, tail);
      if n >= HEADER + 8 {
        SplitAt(Encode64(|f.payload|), f.payload);
        assert tail[..8] == body[..8];
        SliceTwice(b, HEADER, 8, 0);
      }
    }
  }

  function Encodings(fs: seq<Frame>): seq<string> {
    seq(|fs|, i requires 0 <= i < |fs| => Encode(fs[i]))
  }

  function EncodeAll(fs: seq<Frame>): string { Flat(Encodings(fs)) }

  function CommandsOf(fs: seq<Frame>): seq<Command> {
    seq(|fs|, i requires 0 <= i < |fs| => CommandOf(fs[i]))
  }

  lemma EncodeAllConcat(a: seq<Frame>, b: seq<Frame>)
    ensures EncodeAll(a + b) == EncodeAll(a) + EncodeAll(b)
  {
    EncodingsConcat(a, b);
    FlatConcat(Encodings(a), Encodings(b));
  }

  lemma EncodingsConcat(a: seq<Frame>, b: seq<Frame>)
    ensures Encodings(a + b) == Encodings(a) + Encodings(b)
  {}

  lemma EncodeAllCons(fs: seq<Frame>)
    requires fs != []
    ensures EncodeAll(fs) == Encode(fs[0]) + EncodeAll(fs[1..])
  {
    assert Encodings(fs)[1..] == Encodings(fs[1..]);
  }

  lemma DecodeAllWhole(f: Frame, tail: string)
    requires FrameOk(f)
    ensures DecodeAll(Encode(f) + tail) == ([CommandOf(f)] + DecodeAll(tail).0, DecodeAll(tail).1)
  {
    DecodeWhole(f, tail);
  }

  lemma DecodeAllCut(f: Frame, n: nat)
    requires FrameOk(f) && n < |Encode(f)|
    ensures DecodeAll(Encode(f)[..n]) == ([], Encode(f)[..n])
  {
    DecodeCut(f, n);
  }

  /** A prefix of concatenated pieces is k whole pieces and a proper part of the next one. */
  lemma {:induction false} CutPieces(cs: seq<string>, n: nat) returns (k: nat, part: string)
    requires n <= |Flat(cs)|
    ensures k <= |cs| && Flat(cs)[..n] == Flat(cs[..k]) + part
    ensures if k == |cs| then part == "" else |part| < |cs[k]| && part == cs[k][..|part|]
  {
    if cs == [] {
      k, part := 0, "";
    } else if n < |cs[0]| {
      k, part := 0, cs[0][..n];
    } else {
      var k1, rest := CutPieces(cs[1..], n - |cs[0]|);
      k, part := k1 + 1, rest;
      assert cs[..k][1..] == cs[1..][..k1];
      assert Flat(cs)[..n] == cs[0] + Flat(cs[1..])[..n - |cs[0]|];
    }
  }

  /** The client decodes exactly the whole frames and keeps waiting on the part. */
  lemma {:induction false} DecodeStream(fs: seq<Frame>, part: string)
    requires forall i :: 0 <= i < |fs| ==> FrameOk(fs[i])
    requires DecodeAll(part) == ([], part)
    ensures DecodeAll(EncodeAll(fs) + part) == (CommandsOf(fs), part)
  {
    if fs == [] {
      assert EncodeAll(fs) + part == part && CommandsOf(fs) == [];
    } else {
      DecodeStream(fs[1..], part);
      StreamCons(fs, part);
      DecodeAllWhole(fs[0], EncodeAll(fs[1..]) + part);
    }
  }

  lemma StreamCons(fs: seq<Frame>, part: string)
    requires fs != []
    ensures EncodeAll(fs) + part == Encode(fs[0]) + (EncodeAll(fs[1..]) + part)
    ensures CommandsOf(fs) == [CommandOf(fs[0])] + CommandsOf(fs[1..])
  {
    EncodeAllCons(fs);
    Associative(Encode(fs[0]), EncodeAll(fs[1..]), part);
    CommandsOfCons(fs);
  }

  lemma Associative(a: string, b: string, c: string)
    ensures a + b + c == a + (b + c)
  {}

  lemma SliceTwice(b: string, i: nat, j: nat, k: nat)
    requires i + j + k <= |b|
    ensures b[i..i + j] == b[i..][..j] && b[i + j..] == b[i..][j..] && b[i + j + k..] == b[i..][j..][k..]
  {}

  lemma SplitAt(a: string, b: string)
    ensures (a + b)[..|a|] == a && (a + b)[|a|..] == b
  {}

  lemma CommandsOfCons(fs: seq<Frame>)
    requires fs != []
    ensures CommandsOf(fs) == [CommandOf(fs[0])] + CommandsOf(fs[1..])
  {}

  /** However a stream of frames is cut, it is whole frames and at most one partial frame, and the
      client decodes exactly the whole ones. */
  lemma DecodePrefix(fs: seq<Frame>, n: nat) returns (k: nat, part: string)
    requires forall i :: 0 <= i < |fs| ==> FrameOk(fs[i])
    requires n <= |EncodeAll(fs)|
    ensures k <= |fs| && EncodeAll(fs)[..n] == EncodeAll(fs[..k]) + part
    ensures DecodeAll(EncodeAll(fs)[..n]) == (CommandsOf(fs[..k]), part)
    ensures if k == |fs| then part == "" else |part| < |Encode(fs[k])| && part == Encode(fs[k])[..|part|]
  {
    k, part := CutPieces(Encodings(fs), n);
    assert Encodings(fs)[..k] == Encodings(fs[..k]);
    if k < |fs| { DecodeAllCut(fs[k], |part|); }
    DecodeStream(fs[..k], part);
  }
}
