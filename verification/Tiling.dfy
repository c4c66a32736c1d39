/** Concurrent copies into one region, byte by byte in any order. */
module Tiling {
  import opened Bytes

  /** One copy: `data` goes to the addresses from `start`. */
  datatype Piece = Piece(start: nat, data: seq<byte>) {
    function End(): nat { start + |data| }
    predicate Covers(p: nat) { start <= p < End() }
  }

  type Memory = map<nat, byte>

  /** One byte of one copy. */
  datatype Write = Write(piece: nat, at: nat)

  predicate Fits(ps: seq<Piece>, w: Write) { w.piece < |ps| && w.at < |ps[w.piece].data| }

  /** Every byte of every copy is written at least once, and nothing else is. */
  ghost predicate Schedule(ps: seq<Piece>, ws: seq<Write>) {
    && (forall k :: 0 <= k < |ws| ==> Fits(ps, ws[k]))
    && (forall w :: Fits(ps, w) ==> w in ws)
  }

  function Target(ps: seq<Piece>, w: Write): nat
    requires Fits(ps, w)
  {
    ps[w.piece].start + w.at
  }

  function Store(ps: seq<Piece>, m: Memory, w: Write): Memory
    requires Fits(ps, w)
  {
    m[Target(ps, w) := ps[w.piece].data[w.at]]
  }

  /** The memory after the byte writes `ws`, in that order. */
  function Execute(ps: seq<Piece>, m: Memory, ws: seq<Write>): Memory
    requires forall k :: 0 <= k < |ws| ==> Fits(ps, ws[k])
  {
    if ws == [] then m
    else
      var w := ws[|ws| - 1];
      assert Fits(ps, w);
      Store(ps, Execute(ps, m, ws[..|ws| - 1]), w)
  }

  predicate Covered(ps: seq<Piece>, p: nat) { exists i :: 0 <= i < |ps| && ps[i].Covers(p) }

  /** The copies lie in order inside [lo, lo + |image|), do not overlap, and each carries the
      image's own bytes. */
  ghost predicate Writes(ps: seq<Piece>, lo: nat, image: seq<byte>) {
    && (forall i, j :: 0 <= i < j < |ps| ==> ps[i].End() <= ps[j].start)
    && (forall i :: 0 <= i < |ps| ==> PartOf(ps[i], lo, image))
  }

  ghost predicate PartOf(p: Piece, lo: nat, image: seq<byte>) {
    && lo <= p.start && p.End() <= lo + |image|
    && forall k :: 0 <= k < |p.data| ==> p.data[k] == image[p.start - lo + k]
  }

  lemma WritesOne(p: Piece)
    ensures Writes([p], p.start, p.data) && forall a: nat :: Covered([p], a) <==> p.Covers(a)
  {
    forall a: nat | p.Covers(a) ensures Covered([p], a) { assert [p][0].Covers(a); }
  }

  lemma CoveredBoth(ps: seq<Piece>, qs: seq<Piece>, p: nat)
    ensures Covered(ps + qs, p) <==> Covered(ps, p) || Covered(qs, p)
  {
    if i :| 0 <= i < |ps| && ps[i].Covers(p) { assert (ps + qs)[i].Covers(p); }
    if i :| 0 <= i < |qs| && qs[i].Covers(p) { assert (ps + qs)[|ps| + i].Covers(p); }
  }

  /** Copies for one stretch followed by copies for the next. */
  lemma Joined(ps: seq<Piece>, lo: nat, a: seq<byte>, qs: seq<Piece>, b: seq<byte>)
    requires Writes(ps, lo, a) && Writes(qs, lo + |a|, b)
    ensures Writes(ps + qs, lo, a + b)
    ensures forall p: nat :: Covered(ps + qs, p) <==> Covered(ps, p) || Covered(qs, p)
  {
    forall p: nat ensures Covered(ps + qs, p) <==> Covered(ps, p) || Covered(qs, p) { CoveredBoth(ps, qs, p); }
    forall i | 0 <= i < |ps + qs| ensures PartOf((ps + qs)[i], lo, a + b) {
      if i < |ps| { assert PartOf(ps[i], lo, a); } else { assert PartOf(qs[i - |ps|], lo + |a|, b); }
    }
    forall i, j | 0 <= i < j < |ps + qs| ensures (ps + qs)[i].End() <= (ps + qs)[j].start {
      if i < |ps| <= j { assert PartOf(ps[i], lo, a) && PartOf(qs[j - |ps|], lo + |a|, b); }
    }
  }

  /** No address is written by two of the copies. */
  lemma OneWriter(ps: seq<Piece>, lo: nat, image: seq<byte>, i: nat, j: nat, p: nat)
    requires Writes(ps, lo, image) && i < |ps| && j < |ps| && ps[i].Covers(p) && ps[j].Covers(p)
    ensures i == j
  {
  }

  lemma StoreSpec(ps: seq<Piece>, lo: nat, image: seq<byte>, m: Memory, w: Write)
    requires Writes(ps, lo, image) && Fits(ps, w)
    ensures var p := Target(ps, w);
            lo <= p < lo + |image| && Store(ps, m, w) == m[p := image[p - lo]]
  {
    assert PartOf(ps[w.piece], lo, image);
  }

  /** After any writes at all: an address some write hit holds the image's byte, any other address
      is as before. */
  lemma {:induction false} ExecuteSpec(ps: seq<Piece>, lo: nat, image: seq<byte>, m: Memory, ws: seq<Write>, p: nat)
    requires Writes(ps, lo, image)
    requires forall k :: 0 <= k < |ws| ==> Fits(ps, ws[k])
    ensures var r := Execute(ps, m, ws);
            if Hit(ps, ws, p)
            then lo <= p < lo + |image| && p in r && r[p] == image[p - lo]
            else (p in r <==> p in m) && (p in m ==> r[p] == m[p])
  {
    if ws != [] {
      var rest := ws[..|ws| - 1];
      var w := ws[|ws| - 1];
      assert Fits(ps, w);
      StoreSpec(ps, lo, image, Execute(ps, m, rest), w);
      ExecuteSpec(ps, lo, image, m, rest, p);
      HitSplit(ps, ws, p);
    }
  }

  ghost predicate Hit(ps: seq<Piece>, ws: seq<Write>, p: nat)
    requires forall k :: 0 <= k < |ws| ==> Fits(ps, ws[k])
  {
    exists k :: 0 <= k < |ws| && Target(ps, ws[k]) == p
  }

  lemma HitSplit(ps: seq<Piece>, ws: seq<Write>, p: nat)
    requires ws != [] && forall k :: 0 <= k < |ws| ==> Fits(ps, ws[k])
    ensures Hit(ps, ws, p) <==> Hit(ps, ws[..|ws| - 1], p) || Target(ps, ws[|ws| - 1]) == p
  {
    var rest := ws[..|ws| - 1];
    if k :| 0 <= k < |ws| && Target(ps, ws[k]) == p {
      if k < |rest| { assert Target(ps, rest[k]) == p; }
    }
    if k :| 0 <= k < |rest| && Target(ps, rest[k]) == p { assert Target(ps, ws[k]) == p; }
  }

  /** Every order of the byte writes gives the same memory: the image on the covered addresses,
      the old contents elsewhere. */
  lemma AnyOrder(ps: seq<Piece>, lo: nat, image: seq<byte>, m: Memory, ws: seq<Write>)
    requires Writes(ps, lo, image) && Schedule(ps, ws)
    ensures var r := Execute(ps, m, ws);
            && (forall p: nat :: Covered(ps, p) ==> lo <= p < lo + |image| && p in r && r[p] == image[p - lo])
            && (forall p: nat :: !Covered(ps, p) ==> (p in r <==> p in m) && (p in m ==> r[p] == m[p]))
  {
    forall p: nat
      ensures Covered(ps, p) <==> Hit(ps, ws, p)
    {
      if i :| 0 <= i < |ps| && ps[i].Covers(p) {
        var w := Write(i, p - ps[i].start);
        assert Fits(ps, w) && Target(ps, w) == p;
        var k :| 0 <= k < |ws| && ws[k] == w;
      }
      if k :| 0 <= k < |ws| && Target(ps, ws[k]) == p { assert ps[ws[k].piece].Covers(p); }
    }
    forall p: nat
      ensures var r := Execute(ps, m, ws);
              if Covered(ps, p) then lo <= p < lo + |image| && p in r && r[p] == image[p - lo]
              else (p in r <==> p in m) && (p in m ==> r[p] == m[p])
    {
      ExecuteSpec(ps, lo, image, m, ws, p);
    }
  }

  /** The region [lo, lo + |image|) holds the image. */
  ghost predicate Holds(m: Memory, lo: nat, image: seq<byte>) {
    forall p: nat :: lo <= p < lo + |image| ==> p in m && m[p] == image[p - lo]
  }

  /** The copies one after the other, each from its first byte to its last. */
  function InOrder(ps: seq<Piece>, n: nat): (ws: seq<Write>)
    requires n <= |ps|
    ensures forall w :: w in ws <==> w.piece < n && Fits(ps, w)
  {
    if n == 0 then []
    else
      var last := seq(|ps[n - 1].data|, k requires 0 <= k < |ps[n - 1].data| => Write(n - 1, k));
      assert forall w: Write :: w in last <==> w.piece == n - 1 && Fits(ps, w) by {
        forall w: Write | w.piece == n - 1 && Fits(ps, w) ensures w in last { assert last[w.at] == w; }
      }
      InOrder(ps, n - 1) + last
  }

  /** Every schedule of the copies leaves the image in place exactly when they leave no gap. */
  lemma CompleteIffNoGap(ps: seq<Piece>, lo: nat, image: seq<byte>)
    requires Writes(ps, lo, image)
    ensures (forall p: nat :: lo <= p < lo + |image| ==> Covered(ps, p))
       <==> (forall m: Memory, ws :: Schedule(ps, ws) ==> Holds(Execute(ps, m, ws), lo, image))
  {
    forall m: Memory, ws | Schedule(ps, ws) && forall p: nat :: lo <= p < lo + |image| ==> Covered(ps, p)
      ensures Holds(Execute(ps, m, ws), lo, image)
    {
      AnyOrder(ps, lo, image, m, ws);
    }
    if p: nat :| lo <= p < lo + |image| && !Covered(ps, p) {
      var m: Memory := map[];
      var ws := InOrder(ps, |ps|);
      assert Schedule(ps, ws);
      AnyOrder(ps, lo, image, m, ws);
      assert !Holds(Execute(ps, m, ws), lo, image);
    }
  }
}
