/** Remote writes and reads split into chunks of at most 1 GiB. */
module Rdma {
  import opened Bytes
  import opened Options
  import opened Tiling

  const RDMA_CHUNK_SIZE: nat := 1073741824
  const RDMA_CQ_SIZE: nat := 100

  /** The local region, and where the peer's region starts. */
  datatype Connection = Connection(region: nat, size: nat, remote: nat)

  /** A work request as it reaches the device. */
  datatype Post = Post(localAddr: nat, remoteAddr: nat, length: nat)

  /** `LOG_FATAL` ends the process. */
  datatype Outcome = Done(ok: bool) | Aborted

  datatype Registration = Inside | Outside | Crossing

  /** `post_send`: the length is narrowed to 32 bits, and a zero argument stands for a default. */
  function PostSend(c: Connection, addr: nat, remoteAddr: nat, length: size_t): Post {
    var narrow := length % 0x1_0000_0000;
    Post(if addr == 0 then c.region else addr,
         if remoteAddr == 0 then c.remote else remoteAddr,
         if narrow == 0 then c.size % 0x1_0000_0000 else narrow)
  }

  /** `memory_registered`: the region's upper bound is computed from the buffer's size. */
  function MemoryRegistered(c: Connection, ptr: nat, size: nat): Registration {
    var upperAddr, upperBound := ptr + size, c.region + size;
    if ptr >= c.region && upperAddr <= upperBound then Inside
    else if c.region <= ptr < upperBound && upperAddr > upperBound then Crossing
    else Outside
  }

  /** Only the region's first address counts as registered; a later one within `size` bytes of it
      ends the process. */
  lemma RegisteredIffAtStart(c: Connection, ptr: nat, size: nat)
    ensures MemoryRegistered(c, ptr, size) == Inside <==> ptr == c.region
    ensures MemoryRegistered(c, ptr, size) == Crossing <==> c.region < ptr < c.region + size
  {
  }

  // ---------------------------------------------------------------- the chunk loop

  function Chunks(size: nat): nat { (size + RDMA_CHUNK_SIZE - 1) / RDMA_CHUNK_SIZE }

  /** The first `|posts|` requests of a transfer of `size` bytes: 1 GiB each, the last one what is left. */
  predicate Split(posts: seq<Post>, localAddr: nat, remoteAddr: nat, size: nat) {
    && |posts| <= Chunks(size)
    && forall k :: 0 <= k < |posts| ==>
         var at := k * RDMA_CHUNK_SIZE;
         posts[k] == Post(localAddr + at, remoteAddr + at, if k < Chunks(size) - 1 then RDMA_CHUNK_SIZE else size - at)
  }

  /** Post all chunks and wait for as many completions; `postOk` and `pollOk` say which calls
      succeed. */
  method Transfer(c: Connection, localAddr: nat, remoteAddr: nat, size: size_t,
                  postOk: nat -> bool, pollOk: nat -> bool)
    returns (ok: bool, posts: seq<Post>)
    requires localAddr > 0 && remoteAddr > 0
    ensures Split(posts, localAddr, remoteAddr, size)
    ensures (forall k :: 0 <= k < |posts| ==> postOk(k)) && (|posts| < Chunks(size) ==> !postOk(|posts|))
    ensures forall k :: 0 <= k < |posts| ==> 0 < posts[k].length <= RDMA_CHUNK_SIZE
    ensures ok <==> forall k :: 0 <= k < Chunks(size) ==> postOk(k) && pollOk(k)
    ensures ok ==> WritesOneCopy(posts, localAddr, remoteAddr, size) && ReadsOneCopy(posts, localAddr, remoteAddr, size)
  {
    hide WritesOneCopy, ReadsOneCopy;
    var completions, moved := 0, 0;
    posts := [];
    while moved < size
      invariant moved == if completions < Chunks(size) then completions * RDMA_CHUNK_SIZE else size
      invariant completions <= Chunks(size)
      invariant |posts| == completions && Split(posts, localAddr, remoteAddr, size)
      invariant forall k :: 0 <= k < completions ==> postOk(k)
    {
      var toMove := if size - moved > RDMA_CHUNK_SIZE then RDMA_CHUNK_SIZE else size - moved;
      if !postOk(completions) { return false, posts; }
      posts := posts + [PostSend(c, localAddr + moved, remoteAddr + moved, toMove)];
      completions := completions + 1;
      moved := moved + toMove;
    }
    AllPostsAreOneCopy(posts, localAddr, remoteAddr, size);
    for i := 0 to completions
      invariant forall k :: 0 <= k < i ==> pollOk(k)
    {
      if !pollOk(i) { return false, posts; }
    }
    ok := true;
  }

  /** The number of outstanding requests fits the completion queue exactly up to 100 GiB. */
  lemma QueueFitsIff(size: nat)
    ensures Chunks(size) <= RDMA_CQ_SIZE <==> size <= 100 * RDMA_CHUNK_SIZE
  {
  }

  // ---------------------------------------------------------------- memory

  /** One sequential copy. */
  function Copied(m: Memory, to: nat, data: seq<byte>): (r: Memory)
    ensures Holds(r, to, data)
    ensures forall p: nat :: !(to <= p < to + |data|) ==> (p in r <==> p in m) && (p in m ==> r[p] == m[p])
  {
    if data == [] then m else Copied(m, to, data[..|data| - 1])[to + |data| - 1 := data[|data| - 1]]
  }

  predicate Mapped(m: Memory, lo: nat, n: nat) { forall p: nat :: lo <= p < lo + n ==> p in m }

  function Load(m: Memory, lo: nat, n: nat): (s: seq<byte>)
    requires Mapped(m, lo, n)
    ensures |s| == n && Holds(m, lo, s)
  {
    seq(n, k requires 0 <= k < n => assert lo + k in m; m[lo + k])
  }

  lemma HeldIsLoaded(m: Memory, lo: nat, data: seq<byte>)
    requires Holds(m, lo, data)
    ensures Mapped(m, lo, |data|) && Load(m, lo, |data|) == data
  {
    forall p: nat | lo <= p < lo + |data| ensures p in m {}
    forall k | 0 <= k < |data| ensures Load(m, lo, |data|)[k] == data[k] {
      assert data[k] == data[lo + k - lo];
      assert m[lo + k] == data[k];
    }
  }

  // ---------------------------------------------------------------- one copy

  predicate LocalMapped(posts: seq<Post>, local: Memory) {
    forall k :: 0 <= k < |posts| ==> Mapped(local, posts[k].localAddr, posts[k].length)
  }

  predicate RemoteMapped(posts: seq<Post>, peer: Memory) {
    forall k :: 0 <= k < |posts| ==> Mapped(peer, posts[k].remoteAddr, posts[k].length)
  }

  /** What the device copies into the peer's memory for the requests of a write. */
  function Outgoing(posts: seq<Post>, local: Memory): (ps: seq<Piece>)
    requires LocalMapped(posts, local)
    ensures |ps| == |posts|
  {
    seq(|posts|, k requires 0 <= k < |posts| =>
      Piece(posts[k].remoteAddr, Load(local, posts[k].localAddr, posts[k].length)))
  }

  /** What the device copies out of the peer's memory for the requests of a read. */
  function Incoming(posts: seq<Post>, peer: Memory): (ps: seq<Piece>)
    requires RemoteMapped(posts, peer)
    ensures |ps| == |posts|
  {
    seq(|posts|, k requires 0 <= k < |posts| =>
      Piece(posts[k].localAddr, Load(peer, posts[k].remoteAddr, posts[k].length)))
  }

  /** In every order of the byte writes the peer ends up with one copy of the local bytes. */
  ghost predicate WritesOneCopy(posts: seq<Post>, localAddr: nat, remoteAddr: nat, size: nat) {
    && (forall local: Memory :: Mapped(local, localAddr, size) ==> LocalMapped(posts, local))
    && (forall local: Memory, peer: Memory, ws ::
          Mapped(local, localAddr, size) && Schedule(Outgoing(posts, local), ws) ==>
            Execute(Outgoing(posts, local), peer, ws) == Copied(peer, remoteAddr, Load(local, localAddr, size)))
  }

  /** In every order of the byte writes the local memory ends up with one copy of the peer's bytes. */
  ghost predicate ReadsOneCopy(posts: seq<Post>, localAddr: nat, remoteAddr: nat, size: nat) {
    && (forall peer: Memory :: Mapped(peer, remoteAddr, size) ==> RemoteMapped(posts, peer))
    && (forall local: Memory, peer: Memory, ws ::
          Mapped(peer, remoteAddr, size) && Schedule(Incoming(posts, peer), ws) ==>
            Execute(Incoming(posts, peer), local, ws) == Copied(local, localAddr, Load(peer, remoteAddr, size)))
  }

  /** Chunks of a stretch of memory that all go equally far. */
  ghost predicate Slices(ps: seq<Piece>, m: Memory, from: nat, to: nat, size: nat)
    requires Mapped(m, from, size)
  {
    && |ps| <= Chunks(size)
    && forall k :: 0 <= k < |ps| ==>
         var at := k * RDMA_CHUNK_SIZE;
         && ps[k].start == to + at
         && |ps[k].data| == (if k < Chunks(size) - 1 then RDMA_CHUNK_SIZE else size - at)
         && ps[k].data == Load(m, from, size)[at..at + |ps[k].data|]
  }

  /** The chunks of a write, or of a read, write each byte at most once and in place; all of them
      together write every byte. */
  lemma ChunksTile(ps: seq<Piece>, m: Memory, from: nat, to: nat, size: nat)
    requires Mapped(m, from, size) && Slices(ps, m, from, to, size)
    ensures Writes(ps, to, Load(m, from, size))
    ensures |ps| == Chunks(size) ==> forall p: nat :: Covered(ps, p) <==> to <= p < to + size
  {
    forall i, j | 0 <= i < j < |ps| ensures ps[i].End() <= ps[j].start {
      assert i * RDMA_CHUNK_SIZE + |ps[i].data| <= j * RDMA_CHUNK_SIZE;
    }
    if |ps| == Chunks(size) {
      forall p: nat | to <= p < to + size ensures Covered(ps, p) {
        var k := (p - to) / RDMA_CHUNK_SIZE;
        assert k < |ps| && ps[k].Covers(p);
      }
    }
  }

  lemma LoadPart(m: Memory, from: nat, size: nat, at: nat, n: nat)
    requires Mapped(m, from, size) && at + n <= size
    ensures Mapped(m, from + at, n) && Load(m, from + at, n) == Load(m, from, size)[at..at + n]
  {
  }

  lemma WriteSlices(posts: seq<Post>, local: Memory, localAddr: nat, remoteAddr: nat, size: nat)
    requires Split(posts, localAddr, remoteAddr, size) && Mapped(local, localAddr, size)
    ensures LocalMapped(posts, local) && Slices(Outgoing(posts, local), local, localAddr, remoteAddr, size)
  {
    hide Load, Mapped;
    forall k | 0 <= k < |posts|
      ensures Mapped(local, posts[k].localAddr, posts[k].length)
      ensures var at := k * RDMA_CHUNK_SIZE;
              Load(local, posts[k].localAddr, posts[k].length) == Load(local, localAddr, size)[at..at + posts[k].length]
    {
      LoadPart(local, localAddr, size, k * RDMA_CHUNK_SIZE, posts[k].length);
    }
  }

  lemma ReadSlices(posts: seq<Post>, peer: Memory, localAddr: nat, remoteAddr: nat, size: nat)
    requires Split(posts, localAddr, remoteAddr, size) && Mapped(peer, remoteAddr, size)
    ensures RemoteMapped(posts, peer) && Slices(Incoming(posts, peer), peer, remoteAddr, localAddr, size)
  {
    hide Load, Mapped;
    forall k | 0 <= k < |posts|
      ensures Mapped(peer, posts[k].remoteAddr, posts[k].length)
      ensures var at := k * RDMA_CHUNK_SIZE;
              Load(peer, posts[k].remoteAddr, posts[k].length) == Load(peer, remoteAddr, size)[at..at + posts[k].length]
    {
      LoadPart(peer, remoteAddr, size, k * RDMA_CHUNK_SIZE, posts[k].length);
    }
  }

  /** In every completion order, byte by byte, all chunks leave the memory that one copy would leave. */
  lemma ChunksRefineOneCopy(ps: seq<Piece>, m: Memory, from: nat, to: nat, size: nat, target: Memory, ws: seq<Write>)
    requires Mapped(m, from, size) && Slices(ps, m, from, to, size) && |ps| == Chunks(size) && Schedule(ps, ws)
    ensures Execute(ps, target, ws) == Copied(target, to, Load(m, from, size))
  {
    ChunksTile(ps, m, from, to, size);
    AnyOrder(ps, to, Load(m, from, size), target, ws);
  }

  lemma AllPostsAreOneCopy(posts: seq<Post>, localAddr: nat, remoteAddr: nat, size: nat)
    requires Split(posts, localAddr, remoteAddr, size) && |posts| == Chunks(size)
    ensures WritesOneCopy(posts, localAddr, remoteAddr, size) && ReadsOneCopy(posts, localAddr, remoteAddr, size)
  {
    hide Slices, Copied;
    forall local: Memory | Mapped(local, localAddr, size) ensures LocalMapped(posts, local) {
      WriteSlices(posts, local, localAddr, remoteAddr, size);
    }
    forall local: Memory, peer: Memory, ws | Mapped(local, localAddr, size) && Schedule(Outgoing(posts, local), ws)
      ensures Execute(Outgoing(posts, local), peer, ws) == Copied(peer, remoteAddr, Load(local, localAddr, size))
    {
      WriteSlices(posts, local, localAddr, remoteAddr, size);
      ChunksRefineOneCopy(Outgoing(posts, local), local, localAddr, remoteAddr, size, peer, ws);
    }
    forall peer: Memory | Mapped(peer, remoteAddr, size) ensures RemoteMapped(posts, peer) {
      ReadSlices(posts, peer, localAddr, remoteAddr, size);
    }
    forall local: Memory, peer: Memory, ws | Mapped(peer, remoteAddr, size) && Schedule(Incoming(posts, peer), ws)
      ensures Execute(Incoming(posts, peer), local, ws) == Copied(local, localAddr, Load(peer, remoteAddr, size))
    {
      ReadSlices(posts, peer, localAddr, remoteAddr, size);
      ChunksRefineOneCopy(Incoming(posts, peer), peer, remoteAddr, localAddr, size, local, ws);
    }
  }

  /** Each address is as before, or lies in the stretch from `to` and has its byte of `data`. */
  ghost predicate PartlyCopied(was: Memory, now: Memory, to: nat, data: seq<byte>) {
    forall p: nat :: || ((p in now <==> p in was) && (p in was ==> now[p] == was[p]))
                     || (to <= p < to + |data| && p in now && now[p] == data[p - to])
  }

  /** Any of the byte writes of some of the chunks. */
  lemma SomeChunks(ps: seq<Piece>, m: Memory, from: nat, to: nat, size: nat, target: Memory, ws: seq<Write>)
    requires Mapped(m, from, size) && Slices(ps, m, from, to, size)
    requires forall k :: 0 <= k < |ws| ==> Fits(ps, ws[k])
    ensures PartlyCopied(target, Execute(ps, target, ws), to, Load(m, from, size))
  {
    ChunksTile(ps, m, from, to, size);
    forall p: nat { ExecuteSpec(ps, to, Load(m, from, size), target, ws, p); }
  }

  // ---------------------------------------------------------------- the two operations

  /** In which order the byte writes of a transfer take place: of one that succeeds, all of them, and of
      one that fails, any. */
  datatype Device = Device(all: seq<Piece> -> seq<Write>, some: seq<Piece> -> seq<Write>)

  ghost predicate Works(d: Device) {
    && (forall ps :: Schedule(ps, d.all(ps)))
    && (forall ps, k :: 0 <= k < |d.some(ps)| ==> Fits(ps, d.some(ps)[k]))
  }

  /** A process that transfers over a connection; its memory is changed in place. */
  class Process {
    const conn: Connection
    var mem: Memory

    constructor (conn: Connection, mem: Memory)
      ensures this.conn == conn && this.mem == mem
    {
      this.conn, this.mem := conn, mem;
    }

    predicate Ready(buffer: nat, offset: nat, size: nat)
      reads this
    {
      && conn.region > 0 && conn.remote > 0
      && Mapped(mem, buffer, size) && Mapped(mem, conn.region + offset, size)
    }

    /** Copy the caller's buffer into the region, unless it is the region; `staged` is what will be sent. */
    method Stage(buffer: nat, offset: nat, size: nat) returns (staged: seq<byte>)
      requires Ready(buffer, offset, size) && MemoryRegistered(conn, buffer, size) != Crossing
      modifies this
      ensures staged == old(Sent(mem, conn, buffer, offset, size))
      ensures Mapped(mem, conn.region + offset, size) && staged == Load(mem, conn.region + offset, size)
      ensures mem == if buffer == conn.region then old(mem) else Copied(old(mem), conn.region + offset, staged)
    {
      RegisteredIffAtStart(conn, buffer, size);
      hide MemoryRegistered, Copied, Load, Holds, Mapped;
      var localAddr := conn.region + offset;
      if MemoryRegistered(conn, buffer, size) == Outside {
        var data := Load(mem, buffer, size);
        mem := Copied(mem, localAddr, data);
        HeldIsLoaded(mem, localAddr, data);
      }
      staged := Load(mem, localAddr, size);
    }

    /** `rdma_write` into the memory of `peer`; `posts` are the requests and `staged` the local bytes they
        send. */
    method RdmaWrite(peer: Process, device: Device, buffer: nat, offset: nat, remoteOffset: nat, asked: size_t,
                     postOk: nat -> bool, pollOk: nat -> bool)
      returns (out: Outcome, posts: seq<Post>, staged: seq<byte>)
      requires conn.size < WORD && Ready(buffer, offset, if asked == 0 then conn.size else asked)
      requires peer != this && Works(device)
      modifies this, peer
      ensures var size := if asked == 0 then conn.size else asked;
              && (out == Aborted <==> conn.region < buffer < conn.region + size)
              && (out == Aborted ==> mem == old(mem) && peer.mem == old(peer.mem) && posts == [])
              && (out.Done? ==>
                    && (out.ok <==> forall k :: 0 <= k < Chunks(size) ==> postOk(k) && pollOk(k))
                    && staged == old(Sent(mem, conn, buffer, offset, size))
                    && mem == (if buffer == conn.region then old(mem)
                               else Copied(old(mem), conn.region + offset, staged))
                    && Split(posts, conn.region + offset, conn.remote + remoteOffset, size)
                    && (if out.ok then peer.mem == Copied(old(peer.mem), conn.remote + remoteOffset, staged)
                        else PartlyCopied(old(peer.mem), peer.mem, conn.remote + remoteOffset, staged)))
    {
      hide MemoryRegistered, Copied, Split, Sent, Chunks, PartlyCopied, Slices, Execute, Load, Mapped;
      hide LocalMapped, Outgoing;
      var localAddr := conn.region + offset;
      var size := if asked == 0 then conn.size else asked;
      var remoteAddr := conn.remote + remoteOffset;
      RegisteredIffAtStart(conn, buffer, size);
      if MemoryRegistered(conn, buffer, size) == Crossing { return Aborted, [], []; }
      staged := Stage(buffer, offset, size);
      var ok;
      ok, posts := Transfer(conn, localAddr, remoteAddr, size, postOk, pollOk);
      WriteSlices(posts, mem, localAddr, remoteAddr, size);
      var copies := Outgoing(posts, mem);
      if !ok { SomeChunks(copies, mem, localAddr, remoteAddr, size, peer.mem, device.some(copies)); }
      peer.mem := Execute(copies, peer.mem, if ok then device.all(copies) else device.some(copies));
      out := Done(ok);
    }

    /** The device carries out the posts of a read, byte by byte in the order `ws`. */
    method Arrive(posts: seq<Post>, localAddr: nat, remoteAddr: nat, size: nat, peer: Memory, ws: seq<Write>)
      requires ReadsOneCopy(posts, localAddr, remoteAddr, size) && Mapped(peer, remoteAddr, size)
      requires RemoteMapped(posts, peer) && Schedule(Incoming(posts, peer), ws)
      modifies this
      ensures mem == Copied(old(mem), localAddr, Load(peer, remoteAddr, size))
    {
      mem := Execute(Incoming(posts, peer), mem, ws);
    }

    /** `rdma_read` of the memory of `peer`. */
    method RdmaRead(peer: Process, device: Device, buffer: nat, offset: nat, remoteOffset: nat, size: size_t,
                    postOk: nat -> bool, pollOk: nat -> bool)
      returns (out: Outcome)
      requires Ready(buffer, offset, size) && Mapped(peer.mem, conn.remote + remoteOffset, size)
      requires peer != this && Works(device)
      modifies this
      ensures var inside := conn.region < buffer < conn.region + size;
              var moved := forall k :: 0 <= k < Chunks(size) ==> postOk(k) && pollOk(k);
              && (out == Done(true) <==> size > 0 && moved && !inside)
              && (out == Aborted <==> moved && inside)
      ensures var remote := Load(peer.mem, conn.remote + remoteOffset, size);
              match out
              case Done(true) => mem == Received(old(mem), conn, buffer, offset, remote)
              case Aborted => mem == Copied(old(mem), conn.region + offset, remote)
              case Done(false) => PartlyCopied(old(mem), mem, conn.region + offset, remote)
    {
      if size <= 0 { return Done(false); }
      var localAddr, remoteAddr := conn.region + offset, conn.remote + remoteOffset;
      var ok, posts := Transfer(conn, localAddr, remoteAddr, size, postOk, pollOk);
      ReadSlices(posts, peer.mem, localAddr, remoteAddr, size);
      var copies := Incoming(posts, peer.mem);
      if !ok {
        SomeChunks(copies, peer.mem, remoteAddr, localAddr, size, mem, device.some(copies));
        mem := Execute(copies, mem, device.some(copies));
        return Done(false);
      }
      Arrive(posts, localAddr, remoteAddr, size, peer.mem, device.all(copies));
      RegisteredIffAtStart(conn, buffer, size);
      var registered := MemoryRegistered(conn, buffer, size);
      if registered == Crossing { return Aborted; }
      if registered == Outside {
        HeldIsLoaded(mem, localAddr, Load(peer.mem, remoteAddr, size));
        var read := Load(mem, localAddr, size);
        mem := Copied(mem, buffer, read);
      }
      out := Done(true);
    }
  }

  /** Memory after a successful read. */
  function Received(m: Memory, c: Connection, buffer: nat, offset: nat, remote: seq<byte>): Memory {
    var arrived := Copied(m, c.region + offset, remote);
    if buffer == c.region then arrived else Copied(arrived, buffer, remote)
  }

  /** Memory with a single 1, at `at`. */
  function Spot(n: nat, at: nat): (m: Memory)
    ensures forall p: nat :: (p in m <==> p < n) && (p in m ==> m[p] == if p == at then 1 else 0)
  {
    if n == 0 then map[] else Spot(n - 1, at)[n - 1 := if n - 1 == at then 1 else 0]
  }

  /** The buffer is apart from the region, or it is the region and is used from its start. */
  predicate Usable(c: Connection, buffer: nat, offset: nat, size: nat) {
    buffer < c.region || c.region + size <= buffer || (buffer == c.region && offset == 0)
  }

  /** What a successful read leaves in memory, unless the process ends. */
  function ReadLeaves(m: Memory, c: Connection, buffer: nat, offset: nat, remote: seq<byte>): Option<Memory> {
    if MemoryRegistered(c, buffer, |remote|) == Crossing then None
    else Some(Received(m, c, buffer, offset, remote))
  }

  ghost predicate Fills(m: Memory, c: Connection, buffer: nat, offset: nat, remote: seq<byte>) {
    var left := ReadLeaves(m, c, buffer, offset, remote);
    left.Some? && Holds(left.value, buffer, remote)
  }

  /** A read fills the caller's buffer, whatever memory held and the peer sent, exactly when the
      buffer is usable. */
  lemma FillsBufferIff(c: Connection, buffer: nat, offset: nat, size: nat)
    requires size > 0
    ensures (forall m: Memory, remote: seq<byte> :: |remote| == size ==> Fills(m, c, buffer, offset, remote))
       <==> Usable(c, buffer, offset, size)
  {
    RegisteredIffAtStart(c, buffer, size);
    hide MemoryRegistered, Copied;
    if !Usable(c, buffer, offset, size) {
      var m, remote: seq<byte> := Spot(buffer + 1, buffer), seq(size, _ => 0);
      MissedByRead(m, c, buffer, offset, remote);
      assert !Fills(m, c, buffer, offset, remote);
    }
  }

  lemma MissedByRead(m: Memory, c: Connection, buffer: nat, offset: nat, remote: seq<byte>)
    requires remote != [] && remote[0] == 0 && buffer in m && m[buffer] == 1
    requires buffer == c.region ==> offset > 0
    ensures buffer == c.region ==> !Holds(Received(m, c, buffer, offset, remote), buffer, remote)
  {
    hide Copied;
    if buffer == c.region {
      var r := Received(m, c, buffer, offset, remote);
      assert buffer in r && r[buffer] != remote[buffer - buffer];
    }
  }

  /** The bytes a write sends, once it has staged them. */
  function Sent(m: Memory, c: Connection, buffer: nat, offset: nat, size: nat): (s: seq<byte>)
    requires Mapped(m, buffer, size) && Mapped(m, c.region + offset, size)
    ensures |s| == size
  {
    Load(m, if buffer == c.region then c.region + offset else buffer, size)
  }

  ghost predicate Sends(m: Memory, c: Connection, buffer: nat, offset: nat, size: nat)
    requires Mapped(m, buffer, size) && Mapped(m, c.region + offset, size)
  {
    MemoryRegistered(c, buffer, size) != Crossing && Sent(m, c, buffer, offset, size) == Load(m, buffer, size)
  }

  /** A write sends the caller's buffer, whatever memory holds, exactly when the buffer is usable. */
  lemma SendsBufferIff(c: Connection, buffer: nat, offset: nat, size: nat)
    requires size > 0
    ensures (forall m: Memory :: Mapped(m, buffer, size) && Mapped(m, c.region + offset, size) ==>
               Sends(m, c, buffer, offset, size))
       <==> Usable(c, buffer, offset, size)
  {
    RegisteredIffAtStart(c, buffer, size);
    hide MemoryRegistered;
    if !Usable(c, buffer, offset, size) {
      var m := Spot(c.region + buffer + offset + size, buffer);
      MissedByWrite(m, c, buffer, offset, size);
      assert !Sends(m, c, buffer, offset, size);
    }
  }

  lemma MissedByWrite(m: Memory, c: Connection, buffer: nat, offset: nat, size: nat)
    requires size > 0 && m == Spot(c.region + buffer + offset + size, buffer)
    ensures Mapped(m, buffer, size) && Mapped(m, c.region + offset, size)
    ensures buffer == c.region && offset > 0 ==> Sent(m, c, buffer, offset, size) != Load(m, buffer, size)
  {
    if buffer == c.region && offset > 0 {
      assert Sent(m, c, buffer, offset, size)[0] == m[buffer + offset] == 0;
      assert Load(m, buffer, size)[0] == m[buffer] == 1;
    }
  }
}
