/** The growable byte buffer, and the Marshal and Unmarshal methods over it. */
module Buffers {
  import opened Bytes
  import opened Options
  import C = Codec

  const BLOCK_SIZE := 4096

  /** The capacity after growing for `needed` bytes. */
  function Grown(needed: nat): (size: nat)
    ensures needed < size <= needed + BLOCK_SIZE && size % BLOCK_SIZE == 0
  {
    needed / BLOCK_SIZE * BLOCK_SIZE + BLOCK_SIZE
  }

  /** `data.Length` is the capacity, `length` counts the useful bytes, `offset` is the read position. */
  class Buffer {
    var data: array<byte>
    var length: nat
    var offset: nat

    ghost predicate Valid()
      reads this
    {
      offset <= length <= data.Length
    }

    function Contents(): (s: seq<byte>)
      reads this, data
      requires length <= data.Length
      ensures |s| == length
    {
      data[..length]
    }

    constructor ()
      ensures Valid() && fresh(data) && Contents() == [] && offset == 0
    {
      data := new byte[BLOCK_SIZE](_ => 0);
      length, offset := 0, 0;
    }

    /** `realloc`: a larger block that keeps the old bytes. */
    method Resize(size: nat)
      requires Valid() && data.Length <= size
      modifies this`data
      ensures Valid() && fresh(data) && data.Length == size && Contents() == old(Contents())
    {
      var block := new byte[size](_ => 0);
      forall i | 0 <= i < data.Length { block[i] := data[i]; }
      data := block;
    }

    /** `Add`, for an item whose object representation is `item`. */
    method Add(item: seq<byte>)
      requires Valid()
      modifies this, data
      ensures Valid() && (data == old(data) || fresh(data))
      ensures Contents() == old(Contents()) + item && offset == old(offset)
      ensures length < data.Length || length == old(length)
      ensures data.Length == if old(length) + |item| >= old(data.Length) then Grown(old(length) + |item|)
                             else old(data.Length)
    {
      if length + |item| >= data.Length { Resize(Grown(length + |item|)); }
      forall i | 0 <= i < |item| { data[length + i] := item[i]; }
      length := length + |item|;
    }

    method AddWord(n: size_t)
      requires Valid()
      modifies this, data
      ensures Valid() && (data == old(data) || fresh(data))
      ensures Contents() == old(Contents()) + C.EncodeWord(n) && offset == old(offset)
      ensures IsWord(C.EncodeWord(n), n)
    {
      C.WordLayout(n);
      Add(Little(n, 8));
    }

    method AddInt(i: int32)
      requires Valid()
      modifies this, data
      ensures Valid() && (data == old(data) || fresh(data))
      ensures Contents() == old(Contents()) + C.EncodeInt(i) && offset == old(offset)
      ensures IsInt(C.EncodeInt(i), i)
    {
      C.IntLayout(i);
      Add(Little(if i < 0 then i + 0x1_0000_0000 else i, 4));
    }

    method AddBool(b: bool)
      requires Valid()
      modifies this, data
      ensures Valid() && (data == old(data) || fresh(data))
      ensures Contents() == old(Contents()) + C.EncodeBool(b) && offset == old(offset)
      ensures Contents() == old(Contents()) + [if b then 1 else 0]
    {
      Add([if b then 1 else 0]);
    }

    /** `strlen`, the length field, and the characters with their terminator. */
    method AddString(s: C.Text)
      requires Valid()
      modifies this, data
      ensures Valid() && (data == old(data) || fresh(data))
      ensures Contents() == old(Contents()) + C.EncodeText(s) && offset == old(offset)
    {
      hide C.EncodeWord, C.CString, IsWord;
      var n := StrLen(s);
      AddWord(n + 1);
      Add(s[..n] + [0]);
      Assoc2(old(Contents()), C.EncodeWord(n + 1), s[..n] + [0]);
    }

    /** `Get`: None is `LOG_FATAL`, which ends the process. */
    method Get(n: nat) returns (item: Option<seq<byte>>)
      requires Valid()
      modifies this`offset
      ensures Valid() && Agrees(item, C.Raw(Contents(), old(offset), n), offset)
      ensures if old(offset) + n > length then item == None && offset == old(offset)
              else item == Some(Contents()[old(offset)..old(offset) + n]) && offset == old(offset) + n
    {
      if offset + n > length { return None; }
      item := Some(data[offset..offset + n]);
      assert data[offset..offset + n] == Contents()[offset..offset + n];
      offset := offset + n;
    }

    method GetWord() returns (n: Option<size_t>)
      requires Valid()
      modifies this`offset
      ensures Valid() && Agrees(n, C.DecodeWord(Contents(), old(offset)), offset)
    {
      var b :- Get(8);
      LittleOfUnsigned(b);
      WordPower();
      n := Some(Unsigned(b));
    }

    method GetInt() returns (i: Option<int32>)
      requires Valid()
      modifies this`offset
      ensures Valid() && Agrees(i, C.DecodeInt(Contents(), old(offset)), offset)
    {
      var b :- Get(4);
      LittleOfUnsigned(b);
      WordPower();
      var n: int := Unsigned(b);
      i := Some(if n >= 0x8000_0000 then n - 0x1_0000_0000 else n);
    }

    method GetBool() returns (b: Option<bool>)
      requires Valid()
      modifies this`offset
      ensures Valid() && Agrees(b, C.DecodeBool(Contents(), old(offset)), offset)
      ensures b == if old(offset) < length then Some(Contents()[old(offset)] != 0) else None
    {
      var raw :- Get(1);
      b := Some(raw[0] != 0);
    }

    /** The bytes up to the terminator; without one the source reads past the string, which is
        undefined and taken as None here. */
    method GetString() returns (t: Option<C.Text>)
      requires Valid()
      modifies this`offset
      ensures Valid() && Agrees(t, C.DecodeText(Contents(), old(offset)), offset)
    {
      var n :- GetWord();
      var b :- Get(n);
      var k := StrLen(b);
      if k == |b| || k >= 0x8000_0000_0000_0000 { return None; }
      t := Some(b[..k]);
    }

    /** `Realloc`: at least the target capacity. */
    method Realloc(target: nat)
      requires Valid()
      modifies this`data
      ensures Valid() && (data == old(data) || fresh(data))
      ensures data.Length == if old(data.Length) < target then target else old(data.Length)
      ensures Contents() == old(Contents())
    {
      if data.Length < target { Resize(target); }
    }

    /** `Reset`: zeroed memory of the same capacity, nothing in it. */
    method Reset()
      requires Valid()
      modifies this, data
      ensures Valid() && data == old(data) && Contents() == [] && offset == 0
      ensures forall i :: 0 <= i < data.Length ==> data[i] == 0
    {
      forall i | 0 <= i < data.Length { data[i] := 0; }
      length, offset := 0, 0;
    }
  }

  /** A buffer read gives what decoding the contents gives. */
  ghost predicate Agrees<T>(r: Option<T>, spec: C.Got<T>, offset: nat) {
    match spec
    case Stopped => r == None
    case Value(v, next) => r == Some(v) && offset == next
  }

  method StrLen(s: seq<byte>) returns (n: nat)
    ensures n == |C.CString(s)| && s[..n] == C.CString(s)
    ensures n <= |s| && (forall i :: 0 <= i < n ==> s[i] != 0) && (n < |s| ==> s[n] == 0)
  {
    n := 0;
    while n < |s| && s[n] != 0
      invariant n <= |s| && forall i :: 0 <= i < n ==> s[i] != 0
      invariant C.CString(s) == s[..n] + C.CString(s[n..])
    {
      assert s[n..][1..] == s[n + 1..];
      n := n + 1;
    }
  }

  // ---------------------------------------------------------------- Marshal

  lemma Assoc2(x: seq<byte>, a: seq<byte>, b: seq<byte>)
    ensures x + a + b == x + (a + b)
  {
  }

  lemma Assoc3(x: seq<byte>, a: seq<byte>, b: seq<byte>, c: seq<byte>)
    ensures x + a + b + c == x + (a + b + c)
  {
  }

  lemma Assoc4(x: seq<byte>, a: seq<byte>, b: seq<byte>, c: seq<byte>, d: seq<byte>)
    ensures x + a + b + c + d == x + (a + b + c + d)
  {
    Assoc3(x, a, b, c);
    assert x + (a + b + c) + d == x + (a + b + c + d);
  }

  lemma Assoc6(x: seq<byte>, a: seq<byte>, b: seq<byte>, c: seq<byte>, d: seq<byte>, e: seq<byte>, f: seq<byte>)
    ensures x + a + b + c + d + e + f == x + (a + b + c + d + e + f)
  {
    Assoc4(x, a, b, c, d);
    Assoc3(x, a + b + c + d, e, f);
  }

  method MarshalMetadata(m: C.Metadata, b: Buffer)
    requires b.Valid()
    modifies b, b.data
    ensures b.Valid() && (b.data == old(b.data) || fresh(b.data))
    ensures b.Contents() == old(b.Contents()) + C.EncodeMetadata(m) && b.offset == old(b.offset)
  {
    hide C.EncodeText, C.EncodeInt, C.EncodeWord, IsWord, IsInt;
    b.AddString(m.jobName);
    b.AddString(m.fileName);
    b.AddInt(m.nodeRank);
    b.AddString(m.iteration);
    b.AddInt(m.state);
    b.AddWord(m.size);
    Assoc6(old(b.Contents()), C.EncodeText(m.jobName), C.EncodeText(m.fileName), C.EncodeInt(m.nodeRank),
           C.EncodeText(m.iteration), C.EncodeInt(m.state), C.EncodeWord(m.size));
  }

  method MarshalEntry(e: C.DataEntry, b: Buffer)
    requires b.Valid()
    modifies b, b.data
    ensures b.Valid() && (b.data == old(b.data) || fresh(b.data))
    ensures b.Contents() == old(b.Contents()) + C.EncodeEntry(e) && b.offset == old(b.offset)
  {
    hide C.EncodeWord, C.EncodeInt, IsWord, IsInt;
    b.AddWord(e.address);
    b.AddInt(e.pid);
    b.AddInt(e.memfd);
    assert b.Contents() == old(b.Contents()) + C.EncodeEntry(e);
  }

  method MarshalItem(r: C.LoadResponse, b: Buffer)
    requires b.Valid()
    modifies b, b.data
    ensures b.Valid() && (b.data == old(b.data) || fresh(b.data))
    ensures b.Contents() == old(b.Contents()) + C.EncodeItem(r) && b.offset == old(b.offset)
  {
    MarshalMetadata(r.metadata, b);
    MarshalEntry(r.entry, b);
    assert b.Contents() == old(b.Contents()) + C.EncodeItem(r);
  }

  method MarshalBatch(rs: C.Responses, code: int32, b: Buffer)
    requires b.Valid()
    modifies b, b.data
    ensures b.Valid() && (b.data == old(b.data) || fresh(b.data))
    ensures b.Contents() == old(b.Contents()) + C.Encode(C.BatchLoaded(rs, code)) && b.offset == old(b.offset)
  {
    hide C.EncodeItem, C.EncodeWord, C.EncodeInt, IsWord, IsInt;
    b.AddWord(|rs|);
    for i := 0 to |rs|
      invariant b.Valid() && (b.data == old(b.data) || fresh(b.data)) && b.offset == old(b.offset)
      invariant b.Contents() == old(b.Contents()) + C.EncodeWord(|rs|) + C.EncodeItems(rs[..i])
    {
      MarshalItem(rs[i], b);
      assert rs[..i + 1][..i] == rs[..i];
      assert C.EncodeItems(rs[..i + 1]) == C.EncodeItems(rs[..i]) + C.EncodeItem(rs[i]);
      Assoc3(old(b.Contents()), C.EncodeWord(|rs|), C.EncodeItems(rs[..i]), C.EncodeItem(rs[i]));
    }
    assert rs[..|rs|] == rs;
    b.AddInt(code);
    Assoc3(old(b.Contents()), C.EncodeWord(|rs|), C.EncodeItems(rs), C.EncodeInt(code));
  }

  method MarshalBackupRequest(meta: C.Metadata, entry: C.DataEntry, only: bool, b: Buffer)
    requires b.Valid()
    modifies b, b.data
    ensures b.Valid() && (b.data == old(b.data) || fresh(b.data)) && b.offset == old(b.offset)
    ensures b.Contents() == old(b.Contents()) + C.Encode(C.BackupRequest(meta, entry, only))
  {
    hide C.EncodeMetadata, C.EncodeEntry, C.EncodeBool;
    MarshalMetadata(meta, b);
    MarshalEntry(entry, b);
    b.AddBool(only);
    Assoc3(old(b.Contents()), C.EncodeMetadata(meta), C.EncodeEntry(entry), C.EncodeBool(only));
  }

  method MarshalLoadRequest(meta: C.Metadata, only: bool, b: Buffer)
    requires b.Valid()
    modifies b, b.data
    ensures b.Valid() && (b.data == old(b.data) || fresh(b.data)) && b.offset == old(b.offset)
    ensures b.Contents() == old(b.Contents()) + C.Encode(C.LoadRequest(meta, only))
  {
    hide C.EncodeMetadata, C.EncodeBool;
    MarshalMetadata(meta, b);
    b.AddBool(only);
    assert b.Contents() == old(b.Contents()) + (C.EncodeMetadata(meta) + C.EncodeBool(only));
  }

  method MarshalLoaded(r: C.LoadResponse, b: Buffer)
    requires b.Valid()
    modifies b, b.data
    ensures b.Valid() && (b.data == old(b.data) || fresh(b.data)) && b.offset == old(b.offset)
    ensures b.Contents() == old(b.Contents()) + C.Encode(C.Loaded(r))
  {
    hide C.EncodeItem, C.EncodeInt, IsInt;
    MarshalItem(r, b);
    b.AddInt(r.code);
    assert b.Contents() == old(b.Contents()) + (C.EncodeItem(r) + C.EncodeInt(r.code));
  }

  method MarshalBatchLoadRequest(rank: int32, iteration: C.Text, state: int32, only: bool, b: Buffer)
    requires b.Valid()
    modifies b, b.data
    ensures b.Valid() && (b.data == old(b.data) || fresh(b.data)) && b.offset == old(b.offset)
    ensures b.Contents() == old(b.Contents()) + C.Encode(C.BatchLoadRequest(rank, iteration, state, only))
  {
    hide C.EncodeText, C.EncodeInt, C.EncodeBool, IsInt;
    b.AddInt(rank);
    b.AddString(iteration);
    b.AddInt(state);
    b.AddBool(only);
    Assoc4(old(b.Contents()), C.EncodeInt(rank), C.EncodeText(iteration), C.EncodeInt(state), C.EncodeBool(only));
  }

  method Marshal(m: C.Message, b: Buffer)
    requires b.Valid()
    modifies b, b.data
    ensures b.Valid() && (b.data == old(b.data) || fresh(b.data)) && b.offset == old(b.offset)
    ensures b.Contents() == old(b.Contents()) + C.Encode(m)
  {
    match m {
      case BackupRequest(meta, entry, only) => MarshalBackupRequest(meta, entry, only, b);
      case LoadRequest(meta, only) => MarshalLoadRequest(meta, only, b);
      case Loaded(r) => MarshalLoaded(r, b);
      case BatchLoadRequest(rank, iteration, state, only) => MarshalBatchLoadRequest(rank, iteration, state, only, b);
      case BatchLoaded(rs, code) => MarshalBatch(rs, code, b);
      case Status(code) => b.AddInt(code);
    }
  }

  // ---------------------------------------------------------------- Unmarshal

  method UnmarshalMetadata(b: Buffer) returns (m: Option<C.Metadata>)
    requires b.Valid()
    modifies b`offset
    ensures b.Valid() && Agrees(m, C.DecodeMetadata(b.Contents(), old(b.offset)), b.offset)
  {
    var jobName :- b.GetString();
    var fileName :- b.GetString();
    var nodeRank :- b.GetInt();
    var iteration :- b.GetString();
    var state :- b.GetInt();
    var size :- b.GetWord();
    m := Some(C.Metadata(jobName, fileName, nodeRank, iteration, state, size));
  }

  method UnmarshalEntry(b: Buffer) returns (e: Option<C.DataEntry>)
    requires b.Valid()
    modifies b`offset
    ensures b.Valid() && Agrees(e, C.DecodeEntry(b.Contents(), old(b.offset)), b.offset)
  {
    var address :- b.GetWord();
    var pid :- b.GetInt();
    var memfd :- b.GetInt();
    e := Some(C.DataEntry(address, pid, memfd));
  }

  method UnmarshalItem(b: Buffer) returns (r: Option<C.LoadResponse>)
    requires b.Valid()
    modifies b`offset
    ensures b.Valid() && Agrees(r, C.DecodeItem(b.Contents(), old(b.offset)), b.offset)
  {
    var metadata :- UnmarshalMetadata(b);
    var entry :- UnmarshalEntry(b);
    r := Some(C.LoadResponse(metadata, entry, C.STATUS_SUCCESS));
  }

  method UnmarshalItems(b: Buffer, n: nat) returns (rs: Option<seq<C.LoadResponse>>)
    requires b.Valid()
    modifies b`offset
    ensures b.Valid() && Agrees(rs, C.DecodeItems(b.Contents(), old(b.offset), n), b.offset)
  {
    hide C.DecodeItem;
    var responses: seq<C.LoadResponse> := [];
    for i := 0 to n
      invariant b.Valid()
      invariant C.DecodeItems(b.Contents(), old(b.offset), i) == C.Value(responses, b.offset)
    {
      var r := UnmarshalItem(b);
      if r.None? {
        ItemsStop(b.Contents(), old(b.offset), i + 1, n);
        return None;
      }
      responses := responses + [r.value];
    }
    rs := Some(responses);
  }

  /** A batch that stops at some element stops. */
  lemma {:induction false} ItemsStop(s: seq<byte>, at: nat, i: nat, n: nat)
    requires i <= n && C.DecodeItems(s, at, i) == C.Stopped
    ensures C.DecodeItems(s, at, n) == C.Stopped
  {
    hide C.DecodeItem;
    if i < n { ItemsStop(s, at, i, n - 1); }
  }

  method Unmarshal(k: C.Kind, b: Buffer) returns (m: Option<C.Message>)
    requires b.Valid()
    modifies b`offset
    ensures b.Valid() && Agrees(m, C.Decode(k, b.Contents(), old(b.offset)), b.offset)
  {
    match k {
      case BackupRequestKind =>
        var meta :- UnmarshalMetadata(b);
        var entry :- UnmarshalEntry(b);
        var only :- b.GetBool();
        m := Some(C.BackupRequest(meta, entry, only));
      case LoadRequestKind =>
        var meta :- UnmarshalMetadata(b);
        var only :- b.GetBool();
        m := Some(C.LoadRequest(meta, only));
      case LoadedKind =>
        var item :- UnmarshalItem(b);
        var code :- b.GetInt();
        m := Some(C.Loaded(item.(code := code)));
      case BatchLoadRequestKind =>
        var rank :- b.GetInt();
        var iteration :- b.GetString();
        var state :- b.GetInt();
        var only :- b.GetBool();
        m := Some(C.BatchLoadRequest(rank, iteration, state, only));
      case BatchLoadedKind =>
        var n :- b.GetWord();
        var rs :- UnmarshalItems(b, n);
        var code :- b.GetInt();
        m := Some(C.BatchLoaded(rs, code));
      case StatusKind =>
        var code :- b.GetInt();
        m := Some(C.Status(code));
    }
  }
}
