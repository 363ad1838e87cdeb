/**
 The two byte buffers of a TLS connection: ciphertext goes in from the socket side
 and out to the engine, and the other way round, each through one array that is
 filled at its end and shifted down when it is read.
 */
module Fifo {
  import opened Basics

  const CAPACITY: nat := 16896

  datatype Result = Bytes(n: nat) | WantRead | WantWrite | Overflow

  // Appends to the first `len` bytes of a buffer.
  method Append(buf: array<byte>, len: nat, data: seq<byte>)
    requires len + |data| <= buf.Length
    modifies buf
    ensures buf[..len + |data|] == old(buf[..len]) + data
  {
    var i := 0;
    while i < |data|
      invariant 0 <= i <= |data| && buf[..len + i] == old(buf[..len]) + data[..i]
    {
      buf[len + i] := data[i];
      assert buf[..len + i + 1] == buf[..len + i] + [data[i]];
      assert data[..i + 1] == data[..i] + [data[i]];
      i := i + 1;
    }
    assert data[..i] == data;
  }

  // memmove(buf, buf + n, len - n)
  method Shift(buf: array<byte>, len: nat, n: nat)
    requires n <= len <= buf.Length
    modifies buf
    ensures buf[..len - n] == old(buf[n..len])
  {
    var i := 0;
    while i < len - n
      invariant 0 <= i <= len - n
      invariant forall j | 0 <= j < i :: buf[j] == old(buf[n + j])
      invariant forall j | i <= j < len :: buf[j] == old(buf[j])
    {
      buf[i] := buf[n + i];
      i := i + 1;
    }
    forall j | 0 <= j < len - n ensures buf[..len - n][j] == old(buf[n..len])[j] {}
  }

  class Connection {
    const input: array<byte>
    const output: array<byte>
    var inLen: nat
    var outLen: nat

    // Everything that ever passed each end.
    ghost var fed: seq<byte>
    ghost var received: seq<byte>
    ghost var sent: seq<byte>
    ghost var taken: seq<byte>

    /** What was accepted on one side is what was delivered on the other, followed by
        what is buffered, in order and without loss or repetition. */
    ghost predicate Valid()
      reads this, input, output
    {
      && input.Length == output.Length == CAPACITY && input != output
      && inLen <= CAPACITY && outLen <= CAPACITY
      && fed == received + input[..inLen]
      && sent == taken + output[..outLen]
    }

    constructor()
      ensures Valid() && inLen == outLen == 0 && fed == received == sent == taken == [] && fresh(input) && fresh(output)
    {
      input := new byte[CAPACITY];
      output := new byte[CAPACITY];
      inLen, outLen := 0, 0;
      fed, received, sent, taken := [], [], [], [];
    }

    // Feeding these bytes is not an overflow.
    ghost predicate Accepts(data: seq<byte>)
      reads this
    {
      inLen + |data| <= CAPACITY
    }

    // http_server_tls_in_space
    method InSpace() returns (n: nat)
      requires Valid()
      ensures forall data: seq<byte> :: |data| <= n <==> Accepts(data)
    {
      n := CAPACITY - inLen;
    }

    /** http_server_tls_feed: all or nothing, and never an overflow for what fits
        into the reported space. */
    method Feed(data: seq<byte>) returns (r: Result)
      requires Valid()
      modifies this`inLen, this`fed, input
      ensures Valid() && output[..outLen] == old(output[..outLen])
      ensures r == Overflow || r == Bytes(|data|)
      ensures fed == old(fed) + (if r.Bytes? then data else []) && inLen == old(inLen) + (if r.Bytes? then |data| else 0)
      ensures r == Overflow <==> !old(Accepts(data))
      ensures r == Overflow ==> input[..] == old(input[..])
    {
      if |data| == 0 {
        return Bytes(0);
      }
      if inLen + |data| > CAPACITY {
        return Overflow;
      }
      Append(input, inLen, data);
      inLen := inLen + |data|;
      fed := fed + data;
      r := Bytes(|data|);
    }

    /** hs_tls_bio_recv: the next bytes in order, as many as asked for and there. */
    method Receive(len: nat) returns (r: Result, data: seq<byte>)
      requires Valid()
      modifies this`inLen, this`received, input
      ensures Valid() && output[..outLen] == old(output[..outLen])
      ensures r == WantRead <==> old(inLen) == 0
      ensures r == WantRead ==> data == [] && inLen == 0 && received == old(received)
      ensures r != WantRead ==>
                && r == Bytes(|data|) && |data| == (if len < old(inLen) then len else old(inLen))
                && received == old(received) + data && inLen == old(inLen) - |data| && received <= fed
    {
      if inLen == 0 {
        return WantRead, [];
      }
      var n := if len < inLen then len else inLen;
      data := input[..n];
      ghost var buffered := input[..inLen];
      Shift(input, inLen, n);
      assert buffered == data + buffered[n..];
      inLen := inLen - n;
      received := received + data;
      r := Bytes(n);
    }

    /** hs_tls_bio_send: a prefix, as long as there is room; nothing only when the
        buffer is full. */
    method Send(data: seq<byte>) returns (r: Result)
      requires Valid()
      modifies this`outLen, this`sent, output
      ensures Valid() && input[..inLen] == old(input[..inLen])
      ensures r == WantWrite <==> old(outLen) == CAPACITY && data != []
      ensures r == WantWrite ==> sent == old(sent) && outLen == old(outLen)
      ensures r != WantWrite ==>
                && r.Bytes? && r.n <= |data| && sent == old(sent) + data[..r.n] && outLen == old(outLen) + r.n
                && (r.n == |data| || outLen == CAPACITY)
    {
      if outLen + |data| > CAPACITY {
        var take := CAPACITY - outLen;
        if take == 0 {
          return WantWrite;
        }
        Append(output, outLen, data[..take]);
        outLen := outLen + take;
        sent := sent + data[..take];
        return Bytes(take);
      }
      Append(output, outLen, data);
      outLen := outLen + |data|;
      sent := sent + data;
      assert data[..|data|] == data;
      r := Bytes(|data|);
    }

    /** http_server_tls_take_output */
    method TakeOutput(cap: int) returns (data: seq<byte>)
      requires Valid()
      modifies this`outLen, this`taken, output
      ensures Valid() && input[..inLen] == old(input[..inLen])
      ensures |data| == (if cap <= 0 then 0 else if cap < old(outLen) then cap else old(outLen))
      ensures taken == old(taken) + data && outLen == old(outLen) - |data| && taken <= sent
    {
      if cap <= 0 || outLen == 0 {
        return [];
      }
      var n := if cap < outLen then cap else outLen;
      data := output[..n];
      ghost var buffered := output[..outLen];
      Shift(output, outLen, n);
      assert buffered == data + buffered[n..];
      outLen := outLen - n;
      taken := taken + data;
    }
  }

  // -------------------------------------------------------------------------
  // Any interleaving

  datatype Call = FeedCall(data: seq<byte>) | ReceiveCall(len: nat) | SendCall(data2: seq<byte>) | TakeCall(cap: int)

  /** Over any sequence of calls from both sides, both directions stay first in first
      out: what came out is a prefix of what went in, and the rest is buffered. */
  method Drive(c: Connection, calls: seq<Call>)
    requires c.Valid()
    modifies c, c.input, c.output
    ensures c.Valid() && old(c.fed) <= c.fed && old(c.sent) <= c.sent && old(c.received) <= c.received && old(c.taken) <= c.taken
    ensures c.received <= c.fed && c.taken <= c.sent && |c.fed| - |c.received| <= CAPACITY && |c.sent| - |c.taken| <= CAPACITY
  {
    var i := 0;
    while i < |calls|
      invariant 0 <= i <= |calls| && c.Valid()
      invariant old(c.fed) <= c.fed && old(c.sent) <= c.sent && old(c.received) <= c.received && old(c.taken) <= c.taken
    {
      match calls[i] {
        case FeedCall(data) => var _ := c.Feed(data);
        case ReceiveCall(len) => var _, _ := c.Receive(len);
        case SendCall(data) => var _ := c.Send(data);
        case TakeCall(cap) => var _ := c.TakeOutput(cap);
      }
      i := i + 1;
    }
  }
}
