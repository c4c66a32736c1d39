/** Writing a checkpoint image into shared memory with many concurrent copies. */
module Memcpy {
  import opened Bytes
  import opened Options
  import opened Tiling

  /** A tensor handed over by the engine: its element count, and its bytes on the device or host. */
  datatype Tensor = Tensor(size: size_t, data: seq<byte>)

  const BUFFER_SIZE: nat := 524288 // 512 KiB
  const BUFFER_NUMS := 2
  const NUM_THREADS := 4

  // ---------------------------------------------------------------- the image

  /** Per tensor: eight bytes of element count, then its data. */
  function Body(ts: seq<Tensor>): seq<byte> {
    if ts == [] then [] else Body(ts[..|ts| - 1]) + Little(ts[|ts| - 1].size, 8) + ts[|ts| - 1].data
  }

  function Image(meta: seq<byte>, ts: seq<Tensor>): seq<byte> { meta + Body(ts) }

  /** How many bytes the tensors take: eight each, and their data. */
  function Room(ts: seq<Tensor>): nat {
    if ts == [] then 0 else Room(ts[..|ts| - 1]) + 8 + |ts[|ts| - 1].data|
  }

  /** The metadata comes first; tensor i stands behind the ones before it, its element count with the least
      significant byte first, and then its data. */
  lemma ImageLayout(meta: seq<byte>, ts: seq<Tensor>, i: nat)
    requires i < |ts|
    ensures var image, at, n := Image(meta, ts), |meta| + Room(ts[..i]), ts[i].size;
            && |image| == |meta| + Room(ts) && at + 8 + |ts[i].data| <= |image|
            && image[..|meta|] == meta
            && IsWord(image[at..at + 8], n)
            && image[at + 8..at + 8 + |ts[i].data|] == ts[i].data
  {
    ImageParts(meta, ts, i);
    WordBytes(ts[i].size);
    hide Little, Image, Room;
  }

  lemma ImageParts(meta: seq<byte>, ts: seq<Tensor>, i: nat)
    requires i < |ts|
    ensures var image := Image(meta, ts);
            && |image| == |meta| + Room(ts) && image[..|meta|] == meta
            && Placed(image, |meta| + Room(ts[..i]), ts[i])
  {
    BodyLength(ts);
    PlacedIn(ts, i);
    hide Body, Room, Placed;
    PlacedAfter(meta, Body(ts), Room(ts[..i]), ts[i]);
  }

  lemma PlacedAfter(meta: seq<byte>, body: seq<byte>, at: nat, t: Tensor)
    requires Placed(body, at, t)
    ensures Placed(meta + body, |meta| + at, t)
  {
    hide Little;
    var len := |t.data|;
    assert (meta + body)[|meta| + at..|meta| + at + 8] == body[at..at + 8];
    assert (meta + body)[|meta| + at + 8..|meta| + at + 8 + len] == body[at + 8..at + 8 + len];
  }

  /** A tensor stands at `at`. */
  predicate Placed(body: seq<byte>, at: nat, t: Tensor) {
    && at + 8 + |t.data| <= |body|
    && body[at..at + 8] == Little(t.size, 8) && body[at + 8..at + 8 + |t.data|] == t.data
  }

  lemma {:induction false} PlacedIn(ts: seq<Tensor>, i: nat)
    requires i < |ts|
    ensures Placed(Body(ts), Room(ts[..i]), ts[i])
  {
    hide Little;
    var init, last := ts[..|ts| - 1], ts[|ts| - 1];
    BodyLength(init);
    var body := Body(init) + Little(last.size, 8) + last.data;
    if i < |ts| - 1 {
      assert init[..i] == ts[..i];
      PlacedIn(init, i);
      PlacedBefore(Body(init), Little(last.size, 8) + last.data, Room(ts[..i]), ts[i]);
      assert Body(ts) == Body(init) + (Little(last.size, 8) + last.data);
    } else {
      assert ts[..i] == init;
    }
  }

  lemma PlacedBefore(body: seq<byte>, more: seq<byte>, at: nat, t: Tensor)
    requires Placed(body, at, t)
    ensures Placed(body + more, at, t)
  {
    assert (body + more)[at..at + 8] == body[at..at + 8];
    assert (body + more)[at + 8..at + 8 + |t.data|] == body[at + 8..at + 8 + |t.data|];
  }

  lemma {:induction false} BodyLength(ts: seq<Tensor>)
    ensures |Body(ts)| == Room(ts)
  {
    if ts != [] { BodyLength(ts[..|ts| - 1]); }
  }

  function DataStart(meta: seq<byte>, ts: seq<Tensor>, i: nat): nat
    requires i < |ts|
  {
    |Image(meta, ts[..i])| + 8
  }

  // ---------------------------------------------------------------- the copies of one tensor

  /** Four threads with a quarter each, and one with the remainder. */
  method HostCopies(data: seq<byte>, dest: nat) returns (ps: seq<Piece>)
    ensures Writes(ps, dest, data)
    ensures forall p: nat :: Covered(ps, p) <==> dest <= p < dest + |data|
  {
    var perSize, remainder := |data| / NUM_THREADS, |data| % NUM_THREADS;
    ps := [];
    for j := 0 to NUM_THREADS
      invariant perSize * j <= |data|
      invariant Writes(ps, dest, data[..perSize * j])
      invariant forall p: nat :: Covered(ps, p) <==> dest <= p < dest + perSize * j
    {
      ps := Append(ps, dest, data[..perSize * j], data[perSize * j..perSize * j + perSize]);
      assert data[..perSize * j] + data[perSize * j..perSize * j + perSize] == data[..perSize * (j + 1)];
    }
    var done := perSize * NUM_THREADS;
    ps := Append(ps, dest, data[..done], data[done..done + remainder]);
    assert data[..done] + data[done..done + remainder] == data;
  }

  /** One more copy right after what is already copied. */
  method Append(ps: seq<Piece>, lo: nat, image: seq<byte>, data: seq<byte>) returns (qs: seq<Piece>)
    requires Writes(ps, lo, image)
    ensures Writes(qs, lo, image + data)
    ensures forall p: nat :: Covered(qs, p) <==> Covered(ps, p) || lo + |image| <= p < lo + |image| + |data|
  {
    var piece := Piece(lo + |image|, data);
    qs := ps + [piece];
    WritesOne(piece);
    Joined(ps, lo, image, [piece], data);
  }

  /** The loop of one device thread: `count` whole blocks through its pinned buffer. */
  method DeviceBlocks(data: seq<byte>, dest: nat, count: nat) returns (ps: seq<Piece>)
    requires count * BUFFER_SIZE <= |data|
    ensures Writes(ps, dest, data[..count * BUFFER_SIZE])
    ensures forall p: nat :: Covered(ps, p) <==> dest <= p < dest + count * BUFFER_SIZE
  {
    ps := [];
    for j := 0 to count
      invariant Writes(ps, dest, data[..j * BUFFER_SIZE])
      invariant forall p: nat :: Covered(ps, p) <==> dest <= p < dest + j * BUFFER_SIZE
    {
      var at := BUFFER_SIZE * j;
      ps := Append(ps, dest, data[..at], data[at..at + BUFFER_SIZE]);
      assert data[..at] + data[at..at + BUFFER_SIZE] == data[..(j + 1) * BUFFER_SIZE];
    }
  }

  /** Position q of an n-byte tensor lies in its last whole block and the number of whole blocks is
      odd. */
  predicate Skipped(n: nat, q: int) {
    var k := n / BUFFER_SIZE;
    k % 2 == 1 && (k - 1) * BUFFER_SIZE <= q < k * BUFFER_SIZE
  }

  /** Two threads with half of the whole blocks each, and the main thread with the remainder. */
  method DeviceCopies(data: seq<byte>, dest: nat) returns (ps: seq<Piece>)
    ensures Writes(ps, dest, data)
    ensures forall p: nat :: Covered(ps, p) <==> dest <= p < dest + |data| && !Skipped(|data|, p - dest)
  {
    var blocks := |data| / BUFFER_SIZE;
    var half := blocks / BUFFER_NUMS * BUFFER_SIZE;
    var t0 := DeviceBlocks(data, dest, blocks / BUFFER_NUMS);
    var t1 := DeviceBlocks(data[half..], dest + half, blocks / BUFFER_NUMS);
    var rest := blocks * BUFFER_SIZE;
    ghost var gap := data[2 * half..rest];
    Joined(t0, dest, data[..half], t1, data[half..][..half]);
    assert data[..half] + data[half..][..half] == data[..2 * half];
    Joined(t0 + t1, dest, data[..2 * half], [], gap);
    assert data[..2 * half] + gap == data[..rest];
    assert t0 + t1 + [] == t0 + t1;
    ps := Append(t0 + t1, dest, data[..rest], data[rest..]);
    assert data[..rest] + data[rest..] == data;
  }

  // ---------------------------------------------------------------- the whole image

  /** Tensor j misses p. */
  predicate MissedBy(meta: seq<byte>, ts: seq<Tensor>, j: nat, p: nat)
    requires j < |ts|
  {
    Skipped(|ts[j].data|, p - DataStart(meta, ts, j))
  }

  /** Some tensor with an odd number of whole blocks has p in its last whole block. */
  predicate Missed(meta: seq<byte>, ts: seq<Tensor>, p: nat) {
    exists i :: 0 <= i < |ts| && MissedBy(meta, ts, i, p)
  }

  /** What `TransomMemcpy` starts: image bytes only, in place, no address twice; everything is
      copied on the host path, everything but the missed blocks on the device path. */
  ghost predicate Plan(ps: seq<Piece>, onDevice: bool, meta: seq<byte>, ts: seq<Tensor>) {
    && Writes(ps, 0, Image(meta, ts))
    && forall p: nat :: Covered(ps, p) <==> p < |Image(meta, ts)| && !(onDevice && Missed(meta, ts, p))
  }

  /** Tensor j lies where it lies, whatever follows it. */
  lemma SameStart(meta: seq<byte>, ts: seq<Tensor>, n: nat, j: nat)
    requires j < n <= |ts|
    ensures DataStart(meta, ts[..n], j) == DataStart(meta, ts, j)
  {
    assert ts[..n][..j] == ts[..j];
  }

  lemma MissedUpto(meta: seq<byte>, ts: seq<Tensor>, n: nat, p: nat)
    requires n <= |ts|
    ensures Missed(meta, ts[..n], p) <==> exists j: nat :: j < n && MissedBy(meta, ts, j, p)
  {
    hide Skipped, DataStart;
    forall j: nat | j < n ensures MissedBy(meta, ts[..n], j, p) == MissedBy(meta, ts, j, p) {
      SameStart(meta, ts, n, j);
    }
  }

  lemma MissedSnoc(meta: seq<byte>, ts: seq<Tensor>, i: nat, p: nat)
    requires i < |ts|
    ensures Missed(meta, ts[..i + 1], p) <==> Missed(meta, ts[..i], p) || MissedBy(meta, ts, i, p)
  {
    hide Missed, MissedBy;
    MissedUpto(meta, ts, i, p);
    MissedUpto(meta, ts, i + 1, p);
  }

  lemma MissedInside(meta: seq<byte>, ts: seq<Tensor>, p: nat)
    requires Missed(meta, ts, p)
    ensures p < |Image(meta, ts)|
  {
    var i :| 0 <= i < |ts| && MissedBy(meta, ts, i, p);
    BodyGrows(ts, i);
  }

  lemma {:induction false} BodyGrows(ts: seq<Tensor>, i: nat)
    requires i < |ts|
    ensures |Body(ts[..i])| + 8 + |ts[i].data| <= |Body(ts)|
  {
    var init := ts[..|ts| - 1];
    if i == |ts| - 1 {
    } else {
      assert init[..i] == ts[..i];
      BodyGrows(init, i);
    }
  }

  /** `ok` is the source's result; `ps` are the copies it starts, all joined before it returns. `openOk`
      and `mapOk` say whether the memory file can be opened and mapped. */
  method TransomMemcpy(meta: seq<byte>, ts: seq<Tensor>, onDevice: bool, openOk: bool, fileSize: nat,
                       shmSize: nat, mapOk: bool)
    returns (ok: bool, ps: seq<Piece>)
    ensures ok <==> openOk && mapOk && fileSize == shmSize == |Image(meta, ts)|
    ensures if openOk && mapOk && fileSize == shmSize then Plan(ps, onDevice, meta, ts) else ps == []
  {
    if !openOk || fileSize != shmSize || !mapOk { return false, []; }
    ps := [Piece(0, meta)];
    WritesOne(ps[0]);
    var offset := 0;
    assert ts[..0] == [] && meta + Body([]) == meta;
    for i := 0 to |ts|
      invariant |meta| + offset == |Image(meta, ts[..i])|
      invariant Plan(ps, onDevice, meta, ts[..i])
    {
      ghost var before := Image(meta, ts[..i]);
      var header := Little(ts[i].size, 8);
      var withHeader := Append(ps, 0, Image(meta, ts[..i]), header);
      offset := offset + 8;
      var copies;
      if onDevice {
        copies := DeviceCopies(ts[i].data, |meta| + offset);
      } else {
        copies := HostCopies(ts[i].data, |meta| + offset);
      }
      PlanSnoc(ps, withHeader, copies, onDevice, meta, ts, i);
      ps := withHeader + copies;
      offset := offset + |ts[i].data|;
    }
    assert ts[..|ts|] == ts;
    offset := offset + |meta|;
    ok := offset == shmSize;
  }

  /** One more tensor: its length field and then its copies. */
  lemma PlanSnoc(ps: seq<Piece>, withHeader: seq<Piece>, copies: seq<Piece>, onDevice: bool,
                 meta: seq<byte>, ts: seq<Tensor>, i: nat)
    requires i < |ts| && Plan(ps, onDevice, meta, ts[..i])
    requires var before := Image(meta, ts[..i]);
             var data := ts[i].data;
             && Writes(withHeader, 0, before + Little(ts[i].size, 8))
             && (forall p: nat :: Covered(withHeader, p) <==> Covered(ps, p) || |before| <= p < |before| + 8)
             && Writes(copies, |before| + 8, data)
             && forall p: nat :: Covered(copies, p) <==>
                  |before| + 8 <= p < |before| + 8 + |data| && !(onDevice && Skipped(|data|, p - (|before| + 8)))
    ensures Plan(withHeader + copies, onDevice, meta, ts[..i + 1])
    ensures |Image(meta, ts[..i + 1])| == |Image(meta, ts[..i])| + 8 + |ts[i].data|
  {
    var before := Image(meta, ts[..i]);
    assert ts[..i + 1][..i] == ts[..i];
    assert Image(meta, ts[..i + 1]) == before + Little(ts[i].size, 8) + ts[i].data;
    Joined(withHeader, 0, before + Little(ts[i].size, 8), copies, ts[i].data);
    var image := Image(meta, ts[..i + 1]);
    forall p: nat
      ensures Covered(withHeader + copies, p) <==> p < |image| && !(onDevice && Missed(meta, ts[..i + 1], p))
    {
      MissedSnoc(meta, ts, i, p);
      if Missed(meta, ts[..i], p) { MissedInside(meta, ts[..i], p); }
      var at := |before| + 8;
      assert Covered(copies, p) <==> at <= p < |image| && !(onDevice && Skipped(|ts[i].data|, p - at));
    }
  }

  // ---------------------------------------------------------------- every schedule

  /** Host path: in every order of the byte writes the region ends up with the metadata followed by
      size and data of each tensor, and nothing outside it changes. */
  lemma HostImageUnderEverySchedule(ps: seq<Piece>, meta: seq<byte>, ts: seq<Tensor>, m: Memory, ws: seq<Write>)
    requires Plan(ps, false, meta, ts) && Schedule(ps, ws)
    ensures Holds(Execute(ps, m, ws), 0, Image(meta, ts))
    ensures forall p: nat :: p >= |Image(meta, ts)| ==>
              (p in Execute(ps, m, ws) <==> p in m) && (p in m ==> Execute(ps, m, ws)[p] == m[p])
  {
    AnyOrder(ps, 0, Image(meta, ts), m, ws);
  }

  /** Device path: the bytes of a missed block keep their old contents in every schedule. */
  lemma MissedKeepsOldContents(ps: seq<Piece>, meta: seq<byte>, ts: seq<Tensor>, m: Memory, ws: seq<Write>, p: nat)
    requires Plan(ps, true, meta, ts) && Schedule(ps, ws)
    requires p < |Image(meta, ts)|
    ensures var r := Execute(ps, m, ws);
            if Missed(meta, ts, p) then (p in r <==> p in m) && (p in m ==> r[p] == m[p])
            else p in r && r[p] == Image(meta, ts)[p]
  {
    AnyOrder(ps, 0, Image(meta, ts), m, ws);
  }

  /** Device path: the image is complete under every schedule exactly when every tensor has an even
      number of whole 512 KiB blocks. */
  lemma DeviceCompleteIffEven(ps: seq<Piece>, meta: seq<byte>, ts: seq<Tensor>)
    requires Plan(ps, true, meta, ts)
    ensures (forall m: Memory, ws :: Schedule(ps, ws) ==> Holds(Execute(ps, m, ws), 0, Image(meta, ts)))
       <==> (forall i :: 0 <= i < |ts| ==> |ts[i].data| / BUFFER_SIZE % 2 == 0)
  {
    CompleteIffNoGap(ps, 0, Image(meta, ts));
    if i :| 0 <= i < |ts| && |ts[i].data| / BUFFER_SIZE % 2 == 1 {
      var p := DataStart(meta, ts, i) + (|ts[i].data| / BUFFER_SIZE - 1) * BUFFER_SIZE;
      assert MissedBy(meta, ts, i, p);
      assert Missed(meta, ts, p);
      MissedInside(meta, ts, p);
    }
  }

  // ---------------------------------------------------------------- the engine's size

  /** The engine's size loop; None is its exception for an empty checkpoint. */
  method CheckpointSize(meta: seq<byte>, ts: seq<Tensor>) returns (size: Option<nat>)
    ensures size == if |Image(meta, ts)| == 0 then None else Some(|Image(meta, ts)|)
  {
    var total := 0;
    for i := 0 to |ts|
      invariant total + 8 * i == |Body(ts[..i])|
    {
      assert ts[..i + 1][..i] == ts[..i];
      total := total + |ts[i].data|;
    }
    assert ts[..|ts|] == ts;
    total := total + |ts| * 8;
    total := total + |meta|;
    size := if total == 0 then None else Some(total);
  }
}
