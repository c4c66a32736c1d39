/** Length-prefixed frames over a socket that sends and receives in pieces of any size. */
module Wire {
  import opened Bytes
  import opened Buffers
  import opened Options
  import C = Codec

  /** One direction of a connection: the bytes sent and not yet received. */
  class Socket {
    var bytes: seq<byte>

    constructor ()
      ensures bytes == []
    {
      bytes := [];
    }
  }

  /** How many bytes at most the k-th call to `send` or `recv` moves; 0 is the end of the stream, and a
      negative number an error. */
  type Cuts = nat -> int

  ghost predicate Positive(cuts: Cuts) { forall k :: cuts(k) > 0 }

  ghost predicate NoErrors(cuts: Cuts) { forall k :: cuts(k) >= 0 }

  function Min(a: int, b: int): int { if a < b then a else b }

  /** The error result -1 as the unsigned word that `sock_send` and `sock_recv` return. */
  const FAILED: size_t := WORD - 1

  /** `sock_send`: the number of bytes sent, or 0 at the end of the stream; `erred` says that a call
      failed. */
  method SockSend(sock: Socket, data: seq<byte>, cuts: Cuts) returns (n: nat, ghost erred: bool)
    modifies sock
    ensures if erred then n == FAILED && !NoErrors(cuts) else n == |data| || n == 0
    ensures Positive(cuts) ==> !erred && n == |data|
    ensures !erred && n == |data| ==> sock.bytes == old(sock.bytes) + data
    ensures erred || n != |data| ==> |sock.bytes| < |old(sock.bytes)| + |data| && old(sock.bytes) <= sock.bytes
    ensures data != [] && cuts(0) < 0 ==> erred && sock.bytes == old(sock.bytes)
  {
    var total, calls := 0, 0;
    erred := false;
    while total < |data|
      invariant total <= |data| && sock.bytes == old(sock.bytes) + data[..total] && !erred
      invariant calls > 0 ==> cuts(0) > 0
      invariant calls == 0 ==> total == 0
    {
      if cuts(calls) < 0 { return FAILED, true; }
      var sent := Min(cuts(calls), |data| - total);
      if sent == 0 { return 0, false; }
      sock.bytes := sock.bytes + data[total..total + sent];
      assert data[..total] + data[total..total + sent] == data[..total + sent];
      calls := calls + 1;
      total := total + sent;
    }
    assert data[..total] == data;
    n := total;
  }

  /** `sock_recv` into the first `size` bytes of `dest`. */
  method SockRecv(sock: Socket, dest: array<byte>, size: nat, cuts: Cuts) returns (n: nat, ghost erred: bool)
    requires size <= dest.Length
    modifies sock, dest
    ensures if erred then n == FAILED && !NoErrors(cuts) else n == size || n == 0
    ensures Positive(cuts) && |old(sock.bytes)| >= size ==> !erred && n == size
    ensures |sock.bytes| <= |old(sock.bytes)|
    ensures !erred && n == size ==>
              && size <= |old(sock.bytes)| && dest[..size] == old(sock.bytes)[..size]
              && sock.bytes == old(sock.bytes)[size..]
    ensures erred || n != size ==> |old(sock.bytes)| - |sock.bytes| < size
    ensures size > 0 && cuts(0) < 0 ==> erred && sock.bytes == old(sock.bytes) && dest[..] == old(dest[..])
  {
    var total, calls := 0, 0;
    erred := false;
    while total < size
      invariant total <= size && total <= |old(sock.bytes)| && !erred
      invariant dest[..total] == old(sock.bytes)[..total] && sock.bytes == old(sock.bytes)[total..]
      invariant calls > 0 ==> cuts(0) >= 0
      invariant calls == 0 ==> total == 0 && dest[..] == old(dest[..])
    {
      if cuts(calls) < 0 { return FAILED, true; }
      var got := Min(Min(cuts(calls), size - total), |sock.bytes|);
      if got == 0 { return 0, false; }
      forall i | 0 <= i < got { dest[total + i] := sock.bytes[i]; }
      assert forall i :: total <= i < total + got ==> dest[i] == old(sock.bytes)[i];
      sock.bytes := sock.bytes[got..];
      calls := calls + 1;
      total := total + got;
    }
    n := total;
  }

  function Frame(body: seq<byte>): seq<byte> { Little(|body|, 8) + body }

  /** A frame is the length of its contents, with the least significant byte first, and its contents. */
  lemma FrameLayout(body: seq<byte>)
    requires |body| < WORD
    ensures IsWord(Frame(body)[..8], |body|) && Frame(body)[8..] == body
  {
    WordBytes(|body|);
  }

  /** `Write`: the length and then the contents; an empty message is sent but reported as failed. The
      test for an error never fires on an unsigned word, so a message that was not sent is reported as
      sent exactly when a call failed. */
  method Write(sock: Socket, b: Buffer, head: Cuts, body: Cuts) returns (ok: bool, ghost erred: bool)
    requires b.Valid() && b.length < WORD
    modifies sock
    ensures erred ==> !NoErrors(head) || !NoErrors(body)
    ensures ok ==> b.length > 0 && (sock.bytes == old(sock.bytes) + Frame(b.Contents()) <==> !erred)
    ensures Positive(head) && Positive(body) ==>
              ok == (b.length > 0) && sock.bytes == old(sock.bytes) + Frame(b.Contents())
    ensures b.length > 0 && head(0) < 0 && body(0) < 0 ==> ok && sock.bytes == old(sock.bytes)
  {
    var n;
    n, erred := SockSend(sock, Little(b.length, 8), head);
    if n <= 0 { return false, erred; }
    var data := b.Contents();
    ghost var erred2;
    n, erred2 := SockSend(sock, data, body);
    assert old(sock.bytes) + Little(|data|, 8) + data == old(sock.bytes) + Frame(data);
    ok, erred := n > 0, erred || erred2;
  }

  /** The length field of the next frame, None at the end of the stream; after an error, whatever bytes
      of it had come in. */
  method ReadLength(sock: Socket, cuts: Cuts) returns (size: Option<size_t>, ghost erred: bool)
    modifies sock
    ensures erred ==> !NoErrors(cuts) && |old(sock.bytes)| - 8 < |sock.bytes| <= |old(sock.bytes)|
    ensures Positive(cuts) && |old(sock.bytes)| >= 8 ==> size.Some? && !erred
    ensures size.Some? && !erred ==>
              && |old(sock.bytes)| >= 8
              && size.value == Unsigned(old(sock.bytes)[..8]) && Little(size.value, 8) == old(sock.bytes)[..8]
              && sock.bytes == old(sock.bytes)[8..]
    ensures cuts(0) < 0 ==> erred && size == Some(0) && sock.bytes == old(sock.bytes)
  {
    var header := new byte[8](_ => 0);
    var n;
    n, erred := SockRecv(sock, header, 8, cuts);
    if n <= 0 { return None, erred; }
    assert header[..] == header[..8];
    LittleOfUnsigned(header[..]);
    WordPower();
    UnsignedOfZeros(header[..]);
    size := Some(Unsigned(header[..]));
  }

  /** `Read` into an empty buffer; None is `LOG_FATAL` for a buffer that holds data. A true result stands
      for a frame that was taken off the stream exactly when no call failed. */
  method Read(sock: Socket, b: Buffer, head: Cuts, body: Cuts) returns (r: Option<bool>, ghost erred: bool)
    requires b.Valid()
    modifies sock, b, b.data
    ensures b.Valid() && (b.data == old(b.data) || fresh(b.data))
    ensures erred ==> !NoErrors(head) || !NoErrors(body)
    ensures r == None <==> old(b.length) != 0
    ensures r == Some(true) ==>
              && b.offset == 0 && b.length > 0
              && (old(sock.bytes) == Frame(b.Contents()) + sock.bytes <==> !erred)
    ensures Positive(head) && |old(sock.bytes)| >= 8 && Unsigned(old(sock.bytes)[..8]) > 0 && body(0) < 0 ==>
              if old(b.length) == 0 then erred && r == Some(true) else r == None
    ensures Positive(head) && Positive(body) && old(b.length) == 0 ==>
              forall msg, rest :: |msg| < WORD && old(sock.bytes) == Frame(msg) + rest ==>
                && r == Some(msg != []) && sock.bytes == rest
                && (msg != [] ==> b.Contents() == msg && b.offset == 0)
  {
    hide Little, Unsigned;
    ghost var stream := sock.bytes;
    erred := false;
    if b.length != 0 { return None, erred; }
    forall msg, rest | |msg| < WORD && stream == Frame(msg) + rest
      ensures Unsigned(stream[..8]) == |msg| && stream[8..][..|msg|] == msg && stream[8..][|msg|..] == rest
    {
      FrameParts(msg, rest, stream);
    }
    var header;
    header, erred := ReadLength(sock, head);
    if header.None? { return Some(false), erred; }
    var size := header.value;
    b.Realloc(size);
    var n;
    ghost var erred2;
    n, erred2 := SockRecv(sock, b.data, size, body);
    erred := erred || erred2;
    if n <= 0 { return Some(false), erred; }
    b.length := size;
    assert |Frame(b.Contents()) + sock.bytes| == 8 + size + |sock.bytes|;
    assert !erred ==> stream == Frame(b.Contents()) + sock.bytes;
    r := Some(true);
  }

  lemma UnsignedOfZeros(s: seq<byte>)
    ensures (forall i :: 0 <= i < |s| ==> s[i] == 0) ==> Unsigned(s) == 0
  {
    if (forall i :: 0 <= i < |s| ==> s[i] == 0) && s != [] {
      UnsignedOfZeros(s[1..]);
    }
  }

  /** A frame tells its length, its contents and what follows it. */
  lemma FrameParts(msg: seq<byte>, rest: seq<byte>, stream: seq<byte>)
    requires |msg| < WORD && stream == Frame(msg) + rest
    ensures Unsigned(stream[..8]) == |msg|
    ensures stream[8..][..|msg|] == msg && stream[8..][|msg|..] == rest
  {
    WordPower();
    UnsignedOfLittle(|msg|, 8);
    assert stream[..8] == Little(|msg|, 8);
  }

  lemma EncodedNotEmpty(m: C.Message)
    ensures |C.Encode(m)| >= 4
  {
    hide C.EncodeText, C.EncodeItems;
  }

  /** Marshal, write, read and unmarshal: whatever the fragmentation, the receiver gets the message
      as it is seen on the other side, the same message if and only if it is clean, and has consumed
      the whole buffer and the whole frame. */
  method Exchange(m: C.Message, sock: Socket, s1: Cuts, s2: Cuts, r1: Cuts, r2: Cuts)
    returns (got: Option<C.Message>, left: nat)
    requires Positive(s1) && Positive(s2) && Positive(r1) && Positive(r2)
    requires sock.bytes == [] && |C.Encode(m)| < WORD
    modifies sock
    ensures got == Some(C.Seen(m)) && left == 0 && sock.bytes == []
    ensures got == Some(m) <==> C.Clean(m)
  {
    hide C.Encode, C.Decode, C.Seen, C.Clean;
    var outgoing := new Buffer();
    Marshal(m, outgoing);
    assert outgoing.Contents() == C.Encode(m);
    EncodedNotEmpty(m);
    var sent, sendErred := Write(sock, outgoing, s1, s2);
    assert sock.bytes == Frame(C.Encode(m)) + [];
    var incoming := new Buffer();
    var received, readErred := Read(sock, incoming, r1, r2);
    assert C.At(incoming.Contents(), 0, C.Encode(m));
    C.RoundTrip(m, incoming.Contents(), 0);
    got := Unmarshal(C.KindOf(m), incoming);
    left := incoming.length - incoming.offset;
    C.SeenIffClean(m);
  }
}
