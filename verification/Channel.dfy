/** The loops that send and receive a payload chunk by chunk on one end of a socket. */
module Channel {
  import opened Limits
  import opened Wire

  /** No read since this call was short. */
  ghost predicate AllFull(calls: seq<(nat, nat)>, from: nat) {
    forall i :: from <= i < |calls| ==> calls[i].0 == calls[i].1
  }

  /** One round of the sending loop takes the next chunk. */
  lemma NextChunk(data: string, sent: nat)
    requires |data| <= INT_MAX && (sent == 0 || sent < |data|)
    ensures
      var size := ChunkSize(|data|, sent);
      && 0 <= size && sent + size <= |data| && (size == 0 ==> data == "")
      && Chunks(data[sent..]) == [data[sent..sent + size]] + if sent + size < |data| then Chunks(data[sent + size..]) else []
  {
    var rest, size := data[sent..], ChunkSize(|data|, sent);
    assert data[sent..sent + size] == rest[..size] && data[sent + size..] == rest[size..];
    if |rest| <= BUFFER_SIZE { assert rest[..size] == rest; }
  }

  /** memcpy of the bytes read into the buffer. */
  method Copy(buffer: array<char>, at: nat, part: string)
    requires at + |part| <= buffer.Length
    modifies buffer
    ensures buffer[..at + |part|] == old(buffer[..at]) + part
    ensures forall i :: at + |part| <= i < buffer.Length ==> buffer[i] == old(buffer[i])
  {
    forall i | 0 <= i < |part| { buffer[at + i] := part[i]; }
  }

  /** One end of a connected socket. The next read returns at most as many bytes as the head of grants
      says, when there is one; reads and writes are recorded. */
  class Endpoint {
    var incoming: string
    var grants: seq<nat>
    var calls: seq<(nat, nat)>
    var written: seq<string>

    constructor (incoming: string, grants: seq<nat>)
      ensures this.incoming == incoming && this.grants == grants && calls == [] && written == []
    {
      this.incoming := incoming;
      this.grants := grants;
      calls := [];
      written := [];
    }

    /** read(): up to size bytes, fewer when fewer are there or the network grants fewer. */
    method Read(size: nat) returns (part: string)
      modifies this`incoming, this`grants, this`calls
      ensures |part| <= size && old(incoming) == part + incoming
      ensures calls == old(calls) + [(size, |part|)]
      ensures grants == if old(grants) == [] then [] else old(grants)[1..]
      ensures old(grants) == [] ==> |part| == if |old(incoming)| < size then |old(incoming)| else size
    {
      var n := if |incoming| < size then |incoming| else size;
      if grants != [] {
        if grants[0] < n { n := grants[0]; }
        grants := grants[1..];
      }
      part := incoming[..n];
      incoming := incoming[n..];
      calls := calls + [(size, n)];
    }

    /** write() that takes everything it is given. */
    method Write(data: string)
      modifies this`written
      ensures written == old(written) + [data]
    {
      written := written + [data];
    }

    /** sendLargePayloadToSocket: the writes are exactly the chunks of the payload. */
    method SendLargePayload(data: string) returns (sent: nat)
      requires |data| <= INT_MAX
      modifies this`written
      ensures sent == |data|
      ensures written == old(written) + Chunks(data)
      ensures Flat(written) == Flat(old(written)) + data
    {
      hide Chunks, ChunkSize, Flat;
      sent := 0;
      var more := true;
      ghost var done: seq<string> := [];
      assert data[0..] == data;
      while more
        invariant sent <= |data| && (more ==> sent == 0 || sent < |data|) && written == old(written) + done
        invariant more ==> done + Chunks(data[sent..]) == Chunks(data)
        invariant !more ==> done == Chunks(data) && sent == |data|
        decreases |data| - sent + if more then 1 else 0
      {
        NextChunk(data, sent);
        var size := ChunkSize(|data|, sent);
        var buffer := data[sent..sent + size];
        Write(buffer);
        done := done + [buffer];
        sent := sent + size;
        more := sent < |data|;
      }
      ChunksFlat(data);
      FlatConcat(old(written), Chunks(data));
    }

    /** The client's readLargePayloadFromSocket: it gives up at the first short read, whose bytes are lost. */
    method ReadLargePayload(buffer: array<char>, size: nat) returns (count: nat, ghost lost: nat)
      requires size <= INT_MAX && size <= buffer.Length
      modifies this`incoming, this`grants, this`calls, buffer
      ensures count <= size && lost <= BUFFER_SIZE && count + lost <= |old(incoming)|
      ensures buffer[..count] == old(incoming)[..count] && buffer[count..] == old(buffer[count..])
      ensures incoming == old(incoming)[count + lost..]
      ensures |calls| > |old(calls)| && (count == size <==> AllFull(calls, |old(calls)|))
      ensures count == size ==> lost == 0
      ensures old(grants) == [] ==> grants == []
      ensures old(grants) == [] && |old(incoming)| >= size ==> count == size
    {
      count, lost := 0, 0;
      var more := true;
      while more
        invariant count <= size && count <= |old(incoming)|
        invariant buffer[..count] == old(incoming)[..count]
        invariant forall i :: count <= i < buffer.Length ==> buffer[i] == old(buffer[i])
        invariant incoming == old(incoming)[count..]
        invariant |calls| >= |old(calls)| && AllFull(calls, |old(calls)|)
        invariant more && count == size ==> size == 0
        invariant !more ==> count == size && |calls| > |old(calls)|
        invariant lost == 0 && (old(grants) == [] ==> grants == [])
        decreases size - count + if more then 1 else 0
      {
        var chunk := ChunkSize(size, count);
        var part := Read(chunk);
        if |part| != chunk {
          lost := |part|;
          assert calls[|calls| - 1] == (chunk, |part|);
          break;
        }
        Copy(buffer, count, part);
        count := count + chunk;
        more := count < size;
      }
    }

    /** The server's readLargePayloadFromSocket: a short read ends the thread. */
    method ReadOrExit(buffer: array<char>, size: nat) returns (alive: bool)
      requires size <= INT_MAX && size <= buffer.Length
      modifies this`incoming, this`grants, this`calls, buffer
      ensures alive ==> size <= |old(incoming)| && buffer[..size] == old(incoming)[..size]
      ensures alive ==> incoming == old(incoming)[size..] && buffer[size..] == old(buffer[size..])
      ensures |calls| >= |old(calls)| && (alive <==> AllFull(calls, |old(calls)|))
      ensures old(grants) == [] && |old(incoming)| >= size ==> alive
    {
      var count: nat := 0;
      var more := true;
      while more
        invariant count <= size && count <= |old(incoming)|
        invariant buffer[..count] == old(incoming)[..count]
        invariant forall i :: count <= i < buffer.Length ==> buffer[i] == old(buffer[i])
        invariant incoming == old(incoming)[count..]
        invariant |calls| >= |old(calls)| && AllFull(calls, |old(calls)|)
        invariant !more ==> count == size
        invariant old(grants) == [] ==> grants == []
        decreases size - count + if more then 1 else 0
      {
        var chunk := ChunkSize(size, count);
        var part := Read(chunk);
        if |part| != chunk {
          assert calls[|calls| - 1] == (chunk, |part|);
          return false;
        }
        Copy(buffer, count, part);
        count := count + chunk;
        more := count < size;
      }
      return true;
    }
  }

  /** Sending a payload and receiving as many bytes at the other end gives it back and leaves what is behind
      it unread, whatever chunks it travels in. */
  method RoundTrip(data: string, behind: string, buffer: array<char>) returns (count: nat, unread: string)
    requires |data| <= INT_MAX && |data| <= buffer.Length
    modifies buffer
    ensures count == |data| && buffer[..count] == data && unread == behind
  {
    var sender := new Endpoint("", []);
    var sent := sender.SendLargePayload(data);
    assert Flat(sender.written) == data by { assert Flat([]) == "" && "" + data == data; }
    var stream := Join(sender.written);
    var receiver := new Endpoint(stream + behind, []);
    ghost var lost;
    count, lost := receiver.ReadLargePayload(buffer, |data|);
    unread := receiver.incoming;
  }

  /** The bytes of the writes, as the other end sees them. */
  method Join(parts: seq<string>) returns (stream: string)
    ensures stream == Flat(parts)
  {
    stream := "";
    for i := 0 to |parts|
      invariant stream + Flat(parts[i..]) == Flat(parts)
    {
      Associative(stream, parts[i], Flat(parts[i + 1..]));
      assert parts[i..][1..] == parts[i + 1..];
      stream := stream + parts[i];
    }
    assert parts[|parts|..] == [] && stream + "" == stream;
  }
}
