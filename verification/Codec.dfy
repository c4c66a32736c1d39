/** The wire format of the inter-node messages, and what a receiver reads back. */
module Codec {
  import opened Bytes

  /** A `std::string`; it may hold NUL bytes. */
  type Text = t: seq<byte> | |t| < 0x8000_0000_0000_0000

  /** `state` is the enumerator's value; an enum travels as four bytes. */
  datatype Metadata = Metadata(jobName: Text, fileName: Text, nodeRank: int32, iteration: Text, state: int32,
                               size: size_t)

  datatype DataEntry = DataEntry(address: size_t, pid: int32, memfd: int32)

  datatype LoadResponse = LoadResponse(metadata: Metadata, entry: DataEntry, code: int32)

  type Responses = rs: seq<LoadResponse> | |rs| < WORD

  datatype Message =
    | BackupRequest(metadata: Metadata, entry: DataEntry, onlyMetadata: bool)
    | LoadRequest(metadata: Metadata, onlyMetadata: bool)
    | Loaded(response: LoadResponse)
    | BatchLoadRequest(nodeRank: int32, iteration: Text, state: int32, onlyMetadata: bool)
    | BatchLoaded(responses: Responses, code: int32)
    | Status(code: int32) // response to a backup or to a notification

  datatype Kind = BackupRequestKind | LoadRequestKind | LoadedKind | BatchLoadRequestKind | BatchLoadedKind | StatusKind

  function KindOf(m: Message): Kind {
    match m
    case BackupRequest(_, _, _) => BackupRequestKind
    case LoadRequest(_, _) => LoadRequestKind
    case Loaded(_) => LoadedKind
    case BatchLoadRequest(_, _, _, _) => BatchLoadRequestKind
    case BatchLoaded(_, _) => BatchLoadedKind
    case Status(_) => StatusKind
  }

  const STATUS_SUCCESS: int32 := 0

  // ---------------------------------------------------------------- encoding

  /** The bytes before the first NUL. */
  function CString(t: seq<byte>): (c: seq<byte>)
    ensures c <= t && 0 !in c && (|c| < |t| ==> t[|c|] == 0)
  {
    if t == [] || t[0] == 0 then [] else [t[0]] + CString(t[1..])
  }

  function EncodeWord(n: size_t): (e: seq<byte>)
    ensures |e| == 8
  {
    Little(n, 8)
  }

  function EncodeInt(i: int32): (e: seq<byte>)
    ensures |e| == 4
  {
    Little(if i < 0 then i + 0x1_0000_0000 else i, 4)
  }

  lemma WordLayout(n: size_t)
    ensures IsWord(EncodeWord(n), n)
  {
    WordBytes(n);
  }

  lemma IntLayout(i: int32)
    ensures IsInt(EncodeInt(i), i)
  {
    hide Little;
    TwosComplement(i);
    hide EncodeInt;
    IntBytes(i);
  }

  lemma TwosComplement(i: int32)
    ensures EncodeInt(i) == Little(i % 0x1_0000_0000, 4)
  {
    hide Little;
    assert i % 0x1_0000_0000 == if i < 0 then i + 0x1_0000_0000 else i;
  }

  function EncodeBool(b: bool): seq<byte> { [if b then 1 else 0] }

  function EncodeText(t: Text): seq<byte> { EncodeWord(|CString(t)| + 1) + (CString(t) + [0]) }

  function EncodeMetadata(m: Metadata): seq<byte> {
    EncodeText(m.jobName) + EncodeText(m.fileName) + EncodeInt(m.nodeRank)
    + EncodeText(m.iteration) + EncodeInt(m.state) + EncodeWord(m.size)
  }

  function EncodeEntry(e: DataEntry): seq<byte> { EncodeWord(e.address) + EncodeInt(e.pid) + EncodeInt(e.memfd) }

  function EncodeItem(r: LoadResponse): seq<byte> { EncodeMetadata(r.metadata) + EncodeEntry(r.entry) }

  function EncodeItems(rs: seq<LoadResponse>): seq<byte> {
    if rs == [] then [] else EncodeItems(rs[..|rs| - 1]) + EncodeItem(rs[|rs| - 1])
  }

  function Encode(m: Message): seq<byte> {
    match m
    case BackupRequest(meta, entry, only) => EncodeMetadata(meta) + EncodeEntry(entry) + EncodeBool(only)
    case LoadRequest(meta, only) => EncodeMetadata(meta) + EncodeBool(only)
    case Loaded(r) => EncodeItem(r) + EncodeInt(r.code)
    case BatchLoadRequest(rank, iteration, state, only) =>
      EncodeInt(rank) + EncodeText(iteration) + EncodeInt(state) + EncodeBool(only)
    case BatchLoaded(rs, code) => EncodeWord(|rs|) + EncodeItems(rs) + EncodeInt(code)
    case Status(code) => EncodeInt(code)
  }

  // ---------------------------------------------------------------- decoding

  /** A value and the position after it, or: the process ends (`LOG_FATAL`), or the read runs past
      an unterminated string and is undefined. */
  datatype Got<+T> = Stopped | Value(value: T, next: nat) {
    predicate IsFailure() { Stopped? }
    function PropagateFailure<U>(): Got<U>
      requires Stopped?
    {
      Stopped
    }
    function Extract(): (T, nat)
      requires Value?
    {
      (value, next)
    }
  }

  function Raw(s: seq<byte>, at: nat, n: nat): (r: Got<seq<byte>>)
    ensures r.Value? ==> |r.value| == n
  {
    if at + n > |s| then Stopped else Value(s[at..at + n], at + n)
  }

  function DecodeWord(s: seq<byte>, at: nat): Got<size_t> {
    var (b, next) :- Raw(s, at, 8);
    LittleOfUnsigned(b);
    WordPower();
    Value(Unsigned(b), next)
  }

  function DecodeInt(s: seq<byte>, at: nat): Got<int32> {
    var (b, next) :- Raw(s, at, 4);
    LittleOfUnsigned(b);
    WordPower();
    var n := Unsigned(b);
    Value(if n >= 0x8000_0000 then n - 0x1_0000_0000 else n, next)
  }

  function DecodeBool(s: seq<byte>, at: nat): Got<bool> {
    var (b, next) :- Raw(s, at, 1);
    Value(b[0] != 0, next)
  }

  function DecodeText(s: seq<byte>, at: nat): Got<Text> {
    var (n, start) :- DecodeWord(s, at);
    var (b, next) :- Raw(s, start, n);
    var c := CString(b);
    if |c| == |b| || |c| >= 0x8000_0000_0000_0000 then Stopped else Value(c, next)
  }

  function DecodeMetadata(s: seq<byte>, at: nat): Got<Metadata> {
    var (jobName, p1) :- DecodeText(s, at);
    var (fileName, p2) :- DecodeText(s, p1);
    var (nodeRank, p3) :- DecodeInt(s, p2);
    var (iteration, p4) :- DecodeText(s, p3);
    var (state, p5) :- DecodeInt(s, p4);
    var (size, p6) :- DecodeWord(s, p5);
    Value(Metadata(jobName, fileName, nodeRank, iteration, state, size), p6)
  }

  function DecodeEntry(s: seq<byte>, at: nat): Got<DataEntry> {
    var (address, p1) :- DecodeWord(s, at);
    var (pid, p2) :- DecodeInt(s, p1);
    var (memfd, p3) :- DecodeInt(s, p2);
    Value(DataEntry(address, pid, memfd), p3)
  }

  /** An element of a batch: its code is not on the wire and starts out as success. */
  function DecodeItem(s: seq<byte>, at: nat): Got<LoadResponse> {
    var (metadata, p1) :- DecodeMetadata(s, at);
    var (entry, p2) :- DecodeEntry(s, p1);
    Value(LoadResponse(metadata, entry, STATUS_SUCCESS), p2)
  }

  function DecodeItems(s: seq<byte>, at: nat, n: nat): (r: Got<seq<LoadResponse>>)
    ensures r.Value? ==> |r.value| == n
  {
    if n == 0 then Value([], at)
    else
      var (rs, p) :- DecodeItems(s, at, n - 1);
      var (item, next) :- DecodeItem(s, p);
      Value(rs + [item], next)
  }

  function Decode(k: Kind, s: seq<byte>, at: nat): Got<Message> {
    match k
    case BackupRequestKind =>
      var (meta, p1) :- DecodeMetadata(s, at);
      var (entry, p2) :- DecodeEntry(s, p1);
      var (only, p3) :- DecodeBool(s, p2);
      Value(BackupRequest(meta, entry, only), p3)
    case LoadRequestKind =>
      var (meta, p1) :- DecodeMetadata(s, at);
      var (only, p2) :- DecodeBool(s, p1);
      Value(LoadRequest(meta, only), p2)
    case LoadedKind =>
      var (item, p1) :- DecodeItem(s, at);
      var (code, p2) :- DecodeInt(s, p1);
      Value(Loaded(item.(code := code)), p2)
    case BatchLoadRequestKind =>
      var (rank, p1) :- DecodeInt(s, at);
      var (iteration, p2) :- DecodeText(s, p1);
      var (state, p3) :- DecodeInt(s, p2);
      var (only, p4) :- DecodeBool(s, p3);
      Value(BatchLoadRequest(rank, iteration, state, only), p4)
    case BatchLoadedKind =>
      var (n, p1) :- DecodeWord(s, at);
      var (rs, p2) :- DecodeItems(s, p1, n);
      var (code, p3) :- DecodeInt(s, p2);
      Value(BatchLoaded(rs, code), p3)
    case StatusKind =>
      var (code, p1) :- DecodeInt(s, at);
      Value(Status(code), p1)
  }

  // ---------------------------------------------------------------- what a receiver sees

  function SeenMetadata(m: Metadata): Metadata {
    m.(jobName := CString(m.jobName), fileName := CString(m.fileName), iteration := CString(m.iteration))
  }

  function SeenItem(r: LoadResponse): LoadResponse {
    r.(metadata := SeenMetadata(r.metadata), code := STATUS_SUCCESS)
  }

  function SeenItems(rs: seq<LoadResponse>): (seen: seq<LoadResponse>)
    ensures |seen| == |rs| && forall i :: 0 <= i < |rs| ==> seen[i] == SeenItem(rs[i])
  {
    if rs == [] then [] else SeenItems(rs[..|rs| - 1]) + [SeenItem(rs[|rs| - 1])]
  }

  /** Strings end at their first NUL, and the codes of batch elements are lost. */
  function Seen(m: Message): Message {
    match m
    case BackupRequest(meta, entry, only) => BackupRequest(SeenMetadata(meta), entry, only)
    case LoadRequest(meta, only) => LoadRequest(SeenMetadata(meta), only)
    case Loaded(r) => Loaded(r.(metadata := SeenMetadata(r.metadata)))
    case BatchLoadRequest(rank, iteration, state, only) => BatchLoadRequest(rank, CString(iteration), state, only)
    case BatchLoaded(rs, code) => BatchLoaded(SeenItems(rs), code)
    case Status(_) => m
  }

  predicate CleanMetadata(m: Metadata) { 0 !in m.jobName && 0 !in m.fileName && 0 !in m.iteration }

  predicate CleanItem(r: LoadResponse) { CleanMetadata(r.metadata) && r.code == STATUS_SUCCESS }

  /** No string holds a NUL, and every batch element has the success code. */
  predicate Clean(m: Message) {
    match m
    case BackupRequest(meta, _, _) => CleanMetadata(meta)
    case LoadRequest(meta, _) => CleanMetadata(meta)
    case Loaded(r) => CleanMetadata(r.metadata)
    case BatchLoadRequest(_, iteration, _, _) => 0 !in iteration
    case BatchLoaded(rs, _) => forall i :: 0 <= i < |rs| ==> CleanItem(rs[i])
    case Status(_) => true
  }

  lemma {:induction false} CStringIff(t: seq<byte>)
    ensures 0 !in CString(t)
    ensures CString(t) == t <==> 0 !in t
  {
    if t != [] { CStringIff(t[1..]); }
  }

  lemma CleanMetadataIff(m: Metadata)
    ensures SeenMetadata(m) == m <==> CleanMetadata(m)
  {
    CStringIff(m.jobName);
    CStringIff(m.fileName);
    CStringIff(m.iteration);
  }

  /** The receiver sees exactly the message sent if and only if the message is clean. */
  lemma SeenIffClean(m: Message)
    ensures Seen(m) == m <==> Clean(m)
  {
    match m
    case BackupRequest(meta, _, _) => CleanMetadataIff(meta);
    case LoadRequest(meta, _) => CleanMetadataIff(meta);
    case Loaded(r) => CleanMetadataIff(r.metadata);
    case BatchLoadRequest(_, iteration, _, _) => CStringIff(iteration);
    case BatchLoaded(rs, _) =>
      forall i | 0 <= i < |rs| ensures SeenItem(rs[i]) == rs[i] <==> CleanItem(rs[i]) {
        CleanMetadataIff(rs[i].metadata);
      }
      if Clean(m) { assert Seen(m).responses == rs; }
      if Seen(m) == m {
        forall i | 0 <= i < |rs| ensures SeenItem(rs[i]) == rs[i] { assert Seen(m).responses[i] == rs[i]; }
      }
    case Status(_) =>
  }

  // ---------------------------------------------------------------- round trips

  /** The bytes `e` stand in `s` from position `at`. */
  ghost predicate At(s: seq<byte>, at: nat, e: seq<byte>) { at + |e| <= |s| && s[at..at + |e|] == e }

  lemma AtBoth(s: seq<byte>, at: nat, a: seq<byte>, b: seq<byte>)
    requires At(s, at, a + b)
    ensures At(s, at, a) && At(s, at + |a|, b)
  {
    assert (a + b)[..|a|] == a && (a + b)[|a|..] == b;
    assert s[at..at + |a + b|][..|a|] == s[at..at + |a|];
    assert s[at..at + |a + b|][|a|..] == s[at + |a|..at + |a| + |b|];
  }

  // ---------------------------------------------------------------- where the fields stand

  /** A string: its length with the terminator, its characters, the terminator. */
  ghost predicate TextAt(s: seq<byte>, at: nat, t: Text) {
    var n := |CString(t)|;
    At(s, at, EncodeWord(n + 1)) && At(s, at + 8, CString(t)) && At(s, at + 8 + n, [0])
  }

  lemma TextLayout(s: seq<byte>, at: nat, t: Text)
    requires At(s, at, EncodeText(t))
    ensures TextAt(s, at, t) && |EncodeText(t)| == |CString(t)| + 9
  {
    AtBoth(s, at, EncodeWord(|CString(t)| + 1), CString(t) + [0]);
    AtBoth(s, at + 8, CString(t), [0]);
  }

  lemma MetadataLayout(s: seq<byte>, at: nat, m: Metadata)
    requires At(s, at, EncodeMetadata(m))
    ensures var job, file, iter := |CString(m.jobName)|, |CString(m.fileName)|, |CString(m.iteration)|;
            && TextAt(s, at, m.jobName)
            && TextAt(s, at + job + 9, m.fileName)
            && At(s, at + job + file + 18, EncodeInt(m.nodeRank))
            && TextAt(s, at + job + file + 22, m.iteration)
            && At(s, at + job + file + iter + 31, EncodeInt(m.state))
            && At(s, at + job + file + iter + 35, EncodeWord(m.size))
            && |EncodeMetadata(m)| == job + file + iter + 43
  {
    hide At, EncodeText, EncodeInt, EncodeWord, TextAt;
    var job, file, iter := EncodeText(m.jobName), EncodeText(m.fileName), EncodeText(m.iteration);
    AtSix(s, at, job, file, EncodeInt(m.nodeRank), iter, EncodeInt(m.state), EncodeWord(m.size));
    TextLayout(s, at, m.jobName);
    TextLayout(s, at + |job|, m.fileName);
    TextLayout(s, at + |job| + |file| + 4, m.iteration);
  }

  lemma EntryLayout(s: seq<byte>, at: nat, e: DataEntry)
    requires At(s, at, EncodeEntry(e))
    ensures At(s, at, EncodeWord(e.address)) && At(s, at + 8, EncodeInt(e.pid)) && At(s, at + 12, EncodeInt(e.memfd))
    ensures |EncodeEntry(e)| == 16
  {
    hide EncodeInt, EncodeWord;
    AtBoth(s, at, EncodeWord(e.address) + EncodeInt(e.pid), EncodeInt(e.memfd));
    AtBoth(s, at, EncodeWord(e.address), EncodeInt(e.pid));
  }

  /** The metadata stands at `at`, and right after it the three fields of the entry. */
  ghost predicate ItemAt(s: seq<byte>, at: nat, m: Metadata, e: DataEntry) {
    var p := at + |EncodeMetadata(m)|;
    && At(s, at, EncodeMetadata(m))
    && At(s, p, EncodeWord(e.address)) && At(s, p + 8, EncodeInt(e.pid)) && At(s, p + 12, EncodeInt(e.memfd))
  }

  lemma ItemLayout(s: seq<byte>, at: nat, m: Metadata, e: DataEntry)
    requires At(s, at, EncodeMetadata(m) + EncodeEntry(e))
    ensures ItemAt(s, at, m, e)
  {
    hide At, EncodeMetadata, EncodeEntry, EncodeInt, EncodeWord;
    AtBoth(s, at, EncodeMetadata(m), EncodeEntry(e));
    EntryLayout(s, at + |EncodeMetadata(m)|, e);
  }

  lemma {:induction false} ItemsLayout(s: seq<byte>, at: nat, rs: seq<LoadResponse>, i: nat)
    requires At(s, at, EncodeItems(rs)) && i < |rs|
    ensures ItemAt(s, at + |EncodeItems(rs[..i])|, rs[i].metadata, rs[i].entry)
  {
    hide At, EncodeItem, ItemAt;
    var init, last := rs[..|rs| - 1], rs[|rs| - 1];
    AtBoth(s, at, EncodeItems(init), EncodeItem(last));
    if i < |rs| - 1 {
      assert init[..i] == rs[..i];
      ItemsLayout(s, at, init, i);
    } else {
      LastItem(s, at + |EncodeItems(init)|, last);
    }
  }

  lemma LastItem(s: seq<byte>, at: nat, r: LoadResponse)
    requires At(s, at, EncodeItem(r))
    ensures ItemAt(s, at, r.metadata, r.entry)
  {
    ItemLayout(s, at, r.metadata, r.entry);
  }

  /** The fields of a message in their order. */
  ghost predicate LaidOut(s: seq<byte>, at: nat, m: Message) {
    match m
    case BackupRequest(meta, entry, only) =>
      ItemAt(s, at, meta, entry) && At(s, at + |EncodeMetadata(meta)| + 16, [if only then 1 else 0])
    case LoadRequest(meta, only) =>
      At(s, at, EncodeMetadata(meta)) && At(s, at + |EncodeMetadata(meta)|, [if only then 1 else 0])
    case Loaded(r) =>
      ItemAt(s, at, r.metadata, r.entry) && At(s, at + |EncodeMetadata(r.metadata)| + 16, EncodeInt(r.code))
    case BatchLoadRequest(rank, iteration, state, only) =>
      var n := |CString(iteration)|;
      && At(s, at, EncodeInt(rank)) && TextAt(s, at + 4, iteration)
      && At(s, at + n + 13, EncodeInt(state)) && At(s, at + n + 17, [if only then 1 else 0])
    case BatchLoaded(rs, code) =>
      && At(s, at, EncodeWord(|rs|))
      && (forall i :: 0 <= i < |rs| ==> ItemAt(s, at + 8 + |EncodeItems(rs[..i])|, rs[i].metadata, rs[i].entry))
      && At(s, at + 8 + |EncodeItems(rs)|, EncodeInt(code))
    case Status(code) => At(s, at, EncodeInt(code))
  }

  lemma MessageLayout(m: Message, s: seq<byte>, at: nat)
    requires At(s, at, Encode(m))
    ensures LaidOut(s, at, m)
  {
    hide At, EncodeMetadata, EncodeEntry, EncodeText, EncodeInt, EncodeWord, EncodeItems, ItemAt, TextAt;
    match m
    case BackupRequest(meta, entry, only) =>
      AtBoth(s, at, EncodeMetadata(meta) + EncodeEntry(entry), EncodeBool(only));
      ItemLayout(s, at, meta, entry);
      EntryLength(entry);
    case LoadRequest(meta, only) =>
      AtBoth(s, at, EncodeMetadata(meta), EncodeBool(only));
    case Loaded(r) =>
      AtBoth(s, at, EncodeItem(r), EncodeInt(r.code));
      LastItem(s, at, r);
      EntryLength(r.entry);
    case BatchLoadRequest(rank, iteration, state, only) =>
      var text := EncodeText(iteration);
      AtFour(s, at, EncodeInt(rank), text, EncodeInt(state), EncodeBool(only));
      TextLayout(s, at + 4, iteration);
    case BatchLoaded(rs, code) =>
      AtBoth(s, at, EncodeWord(|rs|) + EncodeItems(rs), EncodeInt(code));
      AtBoth(s, at, EncodeWord(|rs|), EncodeItems(rs));
      forall i | 0 <= i < |rs|
        ensures ItemAt(s, at + 8 + |EncodeItems(rs[..i])|, rs[i].metadata, rs[i].entry)
      {
        ItemsLayout(s, at + 8, rs, i);
      }
    case Status(code) =>
  }

  lemma EntryLength(e: DataEntry)
    ensures |EncodeEntry(e)| == 16
  {
  }

  lemma ReadWord(s: seq<byte>, at: nat, n: size_t)
    requires At(s, at, EncodeWord(n))
    ensures DecodeWord(s, at) == Value(n, at + 8)
  {
    WordPower();
    UnsignedOfLittle(n, 8);
  }

  lemma ReadInt(s: seq<byte>, at: nat, i: int32)
    requires At(s, at, EncodeInt(i))
    ensures DecodeInt(s, at) == Value(i, at + 4)
  {
    WordPower();
    UnsignedOfLittle(if i < 0 then i + 0x1_0000_0000 else i, 4);
  }

  lemma ReadBool(s: seq<byte>, at: nat, b: bool)
    requires At(s, at, EncodeBool(b))
    ensures DecodeBool(s, at) == Value(b, at + 1)
  {
    assert s[at] == s[at..at + 1][0];
  }

  lemma {:induction false} Terminated(c: seq<byte>)
    requires 0 !in c
    ensures CString(c + [0]) == c
  {
    if c != [] {
      assert (c + [0])[1..] == c[1..] + [0];
      Terminated(c[1..]);
    }
  }

  lemma ReadText(s: seq<byte>, at: nat, t: Text)
    requires At(s, at, EncodeText(t))
    ensures DecodeText(s, at) == Value(CString(t), at + |EncodeText(t)|)
  {
    hide EncodeWord, DecodeWord, CString;
    var c := CString(t);
    AtBoth(s, at, EncodeWord(|c| + 1), c + [0]);
    ReadWord(s, at, |c| + 1);
    CStringIff(t);
    Terminated(c);
  }

  lemma AtSix(s: seq<byte>, at: nat, a: seq<byte>, b: seq<byte>, c: seq<byte>, d: seq<byte>, e: seq<byte>, f: seq<byte>)
    requires At(s, at, a + b + c + d + e + f)
    ensures At(s, at, a) && At(s, at + |a|, b) && At(s, at + |a| + |b|, c) && At(s, at + |a| + |b| + |c|, d)
    ensures At(s, at + |a| + |b| + |c| + |d|, e) && At(s, at + |a| + |b| + |c| + |d| + |e|, f)
  {
    AtBoth(s, at, a + b + c + d + e, f);
    AtBoth(s, at, a + b + c + d, e);
    AtBoth(s, at, a + b + c, d);
    AtBoth(s, at, a + b, c);
    AtBoth(s, at, a, b);
  }

  lemma ReadMetadata(s: seq<byte>, at: nat, m: Metadata)
    requires At(s, at, EncodeMetadata(m))
    ensures DecodeMetadata(s, at) == Value(SeenMetadata(m), at + |EncodeMetadata(m)|)
  {
    hide CString, EncodeText, EncodeInt, EncodeWord, DecodeText, DecodeInt, DecodeWord, At;
    var job, file, iteration := EncodeText(m.jobName), EncodeText(m.fileName), EncodeText(m.iteration);
    AtSix(s, at, job, file, EncodeInt(m.nodeRank), iteration, EncodeInt(m.state), EncodeWord(m.size));
    var p := at + |job| + |file|;
    ReadText(s, at, m.jobName);
    ReadText(s, at + |job|, m.fileName);
    ReadInt(s, p, m.nodeRank);
    ReadText(s, p + 4, m.iteration);
    ReadInt(s, p + 4 + |iteration|, m.state);
    ReadWord(s, p + 8 + |iteration|, m.size);
  }

  lemma ReadEntry(s: seq<byte>, at: nat, e: DataEntry)
    requires At(s, at, EncodeEntry(e))
    ensures DecodeEntry(s, at) == Value(e, at + |EncodeEntry(e)|)
  {
    AtBoth(s, at, EncodeWord(e.address) + EncodeInt(e.pid), EncodeInt(e.memfd));
    AtBoth(s, at, EncodeWord(e.address), EncodeInt(e.pid));
    ReadWord(s, at, e.address);
    ReadInt(s, at + 8, e.pid);
    ReadInt(s, at + 12, e.memfd);
  }

  lemma ReadItem(s: seq<byte>, at: nat, r: LoadResponse)
    requires At(s, at, EncodeItem(r))
    ensures DecodeItem(s, at) == Value(SeenItem(r), at + |EncodeItem(r)|)
  {
    hide At, EncodeMetadata, EncodeEntry, DecodeMetadata, DecodeEntry, SeenMetadata;
    AtBoth(s, at, EncodeMetadata(r.metadata), EncodeEntry(r.entry));
    ReadMetadata(s, at, r.metadata);
    ReadEntry(s, at + |EncodeMetadata(r.metadata)|, r.entry);
  }

  lemma {:induction false} ReadItems(s: seq<byte>, at: nat, rs: seq<LoadResponse>)
    requires At(s, at, EncodeItems(rs))
    ensures DecodeItems(s, at, |rs|) == Value(SeenItems(rs), at + |EncodeItems(rs)|)
  {
    hide EncodeItem, DecodeItem, SeenItem, At;
    if rs != [] {
      var init, last := rs[..|rs| - 1], rs[|rs| - 1];
      AtBoth(s, at, EncodeItems(init), EncodeItem(last));
      ReadItems(s, at, init);
      ReadItem(s, at + |EncodeItems(init)|, last);
    }
  }

  lemma ReadBackupRequest(meta: Metadata, entry: DataEntry, only: bool, s: seq<byte>, at: nat)
    requires At(s, at, Encode(BackupRequest(meta, entry, only)))
    ensures Decode(BackupRequestKind, s, at)
         == Value(Seen(BackupRequest(meta, entry, only)), at + |Encode(BackupRequest(meta, entry, only))|)
  {
    hide EncodeMetadata, DecodeMetadata, DecodeEntry, EncodeEntry, SeenMetadata, At, EncodeWord, EncodeInt;
    AtBoth(s, at, EncodeMetadata(meta) + EncodeEntry(entry), EncodeBool(only));
    AtBoth(s, at, EncodeMetadata(meta), EncodeEntry(entry));
    ReadMetadata(s, at, meta);
    ReadEntry(s, at + |EncodeMetadata(meta)|, entry);
    ReadBool(s, at + |EncodeMetadata(meta) + EncodeEntry(entry)|, only);
  }

  lemma AtFour(s: seq<byte>, at: nat, a: seq<byte>, b: seq<byte>, c: seq<byte>, d: seq<byte>)
    requires At(s, at, a + b + c + d)
    ensures At(s, at, a) && At(s, at + |a|, b) && At(s, at + |a| + |b|, c) && At(s, at + |a| + |b| + |c|, d)
  {
    hide At;
    AtBoth(s, at, a + b + c, d);
    AtBoth(s, at, a + b, c);
    AtBoth(s, at, a, b);
  }

  lemma ReadBatchLoadRequest(rank: int32, iteration: Text, state: int32, only: bool, s: seq<byte>, at: nat)
    requires At(s, at, Encode(BatchLoadRequest(rank, iteration, state, only)))
    ensures var m := BatchLoadRequest(rank, iteration, state, only);
            Decode(BatchLoadRequestKind, s, at) == Value(Seen(m), at + |Encode(m)|)
  {
    hide EncodeText, DecodeText, DecodeInt, DecodeBool, EncodeBool, CString, At, EncodeWord, EncodeInt;
    var text := EncodeText(iteration);
    AtFour(s, at, EncodeInt(rank), text, EncodeInt(state), EncodeBool(only));
    ReadInt(s, at, rank);
    ReadText(s, at + 4, iteration);
    ReadInt(s, at + 4 + |text|, state);
    ReadBool(s, at + 8 + |text|, only);
    BoolLength(only);
  }

  lemma BoolLength(b: bool)
    ensures |EncodeBool(b)| == 1
  {
  }

  lemma ReadBatchLoaded(rs: Responses, code: int32, s: seq<byte>, at: nat)
    requires At(s, at, Encode(BatchLoaded(rs, code)))
    ensures Decode(BatchLoadedKind, s, at) == Value(Seen(BatchLoaded(rs, code)), at + |Encode(BatchLoaded(rs, code))|)
  {
    hide EncodeItems, DecodeItems, SeenItems, DecodeInt, DecodeWord, At, EncodeWord, EncodeInt;
    AtBoth(s, at, EncodeWord(|rs|) + EncodeItems(rs), EncodeInt(code));
    AtBoth(s, at, EncodeWord(|rs|), EncodeItems(rs));
    ReadWord(s, at, |rs|);
    ReadItems(s, at + 8, rs);
    ReadInt(s, at + 8 + |EncodeItems(rs)|, code);
  }

  lemma ReadLoadRequest(meta: Metadata, only: bool, s: seq<byte>, at: nat)
    requires At(s, at, Encode(LoadRequest(meta, only)))
    ensures var m := LoadRequest(meta, only); Decode(LoadRequestKind, s, at) == Value(Seen(m), at + |Encode(m)|)
  {
    hide EncodeMetadata, DecodeMetadata, SeenMetadata, At, EncodeWord, EncodeInt;
    AtBoth(s, at, EncodeMetadata(meta), EncodeBool(only));
    ReadMetadata(s, at, meta);
    ReadBool(s, at + |EncodeMetadata(meta)|, only);
  }

  lemma ReadLoaded(r: LoadResponse, s: seq<byte>, at: nat)
    requires At(s, at, Encode(Loaded(r)))
    ensures Decode(LoadedKind, s, at) == Value(Seen(Loaded(r)), at + |Encode(Loaded(r))|)
  {
    hide EncodeItem, DecodeItem, SeenMetadata, DecodeInt, At, EncodeWord, EncodeInt;
    AtBoth(s, at, EncodeItem(r), EncodeInt(r.code));
    ReadItem(s, at, r);
    ReadInt(s, at + |EncodeItem(r)|, r.code);
  }

  lemma ReadStatus(code: int32, s: seq<byte>, at: nat)
    requires At(s, at, Encode(Status(code)))
    ensures Decode(StatusKind, s, at) == Value(Seen(Status(code)), at + |Encode(Status(code))|)
  {
    ReadInt(s, at, code);
  }

  /** Wherever an encoded message stands, decoding reads back what a receiver should see, and ends
      right after it. */
  lemma RoundTrip(m: Message, s: seq<byte>, at: nat)
    requires At(s, at, Encode(m))
    ensures Decode(KindOf(m), s, at) == Value(Seen(m), at + |Encode(m)|)
  {
    hide Encode, Decode, Seen, At;
    match m
    case BackupRequest(meta, entry, only) => ReadBackupRequest(meta, entry, only, s, at);
    case LoadRequest(meta, only) => ReadLoadRequest(meta, only, s, at);
    case Loaded(r) => ReadLoaded(r, s, at);
    case BatchLoadRequest(rank, iteration, state, only) => ReadBatchLoadRequest(rank, iteration, state, only, s, at);
    case BatchLoaded(rs, code) => ReadBatchLoaded(rs, code, s, at);
    case Status(code) => ReadStatus(code, s, at);
  }
}
