/** A node's two dictionaries and the memory monitor that accounts for them. */
module Storage {
  import opened Bytes
  import opened Options

  type File = string

  /** `size` is the length of the memory file behind the entry. */
  datatype Entry = Entry(address: nat, size: nat)

  /** `Fatal` is `LOG_FATAL`, which ends the process. */
  datatype Code = Success | UnknownError | OutOfMemory | Fatal

  datatype Lookup = Found(entry: Entry) | Missing | Ended

  // ---------------------------------------------------------------- the monitor

  /** Counters are 64-bit words. */
  class MemoryMonitor {
    const userLimit: nat
    const totalCapacity: nat
    var totalIdle: nat
    var selfTotalUsage: nat

    constructor (userLimit: nat, cgroupLimit: size_t, physical: size_t)
      ensures selfTotalUsage == 0 && totalCapacity < WORD && this.userLimit == userLimit
      ensures var other := if userLimit > 0 then userLimit else physical;
              totalCapacity == if cgroupLimit < other then cgroupLimit else other
    {
      this.userLimit := userLimit;
      totalCapacity := if userLimit > 0
                       then (if cgroupLimit < userLimit then cgroupLimit else userLimit)
                       else (if cgroupLimit < physical then cgroupLimit else physical);
      totalIdle, selfTotalUsage := 0, 0;
    }

    /** `collectMetric(false)`, when the control group reports `usage`. */
    method CollectMetric(usage: size_t)
      modifies this`totalIdle
      ensures totalIdle == (totalCapacity - (if userLimit > 0 then selfTotalUsage else usage)) % WORD
    {
      totalIdle := (totalCapacity - (if userLimit > 0 then selfTotalUsage else usage)) % WORD;
    }

    method Enough(toAlloc: size_t, usage: size_t) returns (enough: bool)
      modifies this`totalIdle
      ensures enough <==> (totalCapacity - (if userLimit > 0 then selfTotalUsage else usage)) % WORD > toAlloc
    {
      CollectMetric(usage);
      enough := totalIdle > toAlloc;
    }

    /** The counter is charged before the allocation, which may fail. */
    method TryMemfdMalloc(size: size_t, usage: size_t, systemOk: bool) returns (code: Code)
      modifies this
      ensures code == OutOfMemory <==>
              (totalCapacity - (if userLimit > 0 then old(selfTotalUsage) else usage)) % WORD <= size
      ensures selfTotalUsage == if code == OutOfMemory then old(selfTotalUsage) else (old(selfTotalUsage) + size) % WORD
      ensures code == Success ==> size > 0 && systemOk
      ensures code == UnknownError ==> !(size > 0 && systemOk)
      ensures code != Fatal
    {
      var enough := Enough(size, usage);
      if !enough { return OutOfMemory; }
      selfTotalUsage := (selfTotalUsage + size) % WORD;
      code := if size <= 0 || !systemOk then UnknownError else Success;
    }

    method MemfdFree(size: size_t)
      modifies this`selfTotalUsage
      ensures selfTotalUsage == (old(selfTotalUsage) - size) % WORD
    {
      selfTotalUsage := (selfTotalUsage - size) % WORD;
    }
  }

  // ---------------------------------------------------------------- sums over a dictionary

  ghost function Total(m: map<File, Entry>): nat {
    if m.Keys == {} then 0
    else
      var f :| f in m;
      m[f].size + Total(m - {f})
  }

  /** The sum can be taken from any entry first. */
  lemma {:induction false} TotalFrom(m: map<File, Entry>, f: File)
    requires f in m
    ensures Total(m) == m[f].size + Total(m - {f})
    decreases |m|
  {
    var g :| g in m && Total(m) == m[g].size + Total(m - {g});
    if g != f {
      assert |m - {g}| == |m| - 1 by { assert (m - {g}).Keys == m.Keys - {g}; }
      assert |m - {f}| == |m| - 1 by { assert (m - {f}).Keys == m.Keys - {f}; }
      TotalFrom(m - {g}, f);
      TotalFrom(m - {f}, g);
      assert m - {g} - {f} == m - {f} - {g};
    }
  }

  lemma TotalInsert(m: map<File, Entry>, f: File, e: Entry)
    requires f !in m
    ensures Total(m[f := e]) == Total(m) + e.size
  {
    TotalFrom(m[f := e], f);
    assert m[f := e] - {f} == m;
  }

  lemma TotalUpdate(m: map<File, Entry>, f: File, e: Entry)
    requires f in m
    ensures Total(m[f := e]) == Total(m) - m[f].size + e.size
  {
    TotalFrom(m, f);
    TotalFrom(m[f := e], f);
    assert m[f := e] - {f} == m - {f};
  }

  lemma TotalAtLeast(m: map<File, Entry>, k: map<File, Entry>)
    ensures Total(m) + Total(k) >= 0
  {
  }

  // ---------------------------------------------------------------- the storage

  class Store {
    const rank: int
    const monitor: MemoryMonitor
    var dict: map<File, Entry>
    var backupDict: map<File, Entry>
    ghost var drift: int // what the counter holds beyond the live entries

    ghost function Charged(): int
      reads this
    {
      Total(dict) + Total(backupDict) + drift
    }

    /** The counter is what the live entries take, plus the drift, as a 64-bit word. */
    ghost predicate Valid()
      reads this, monitor
    {
      monitor.totalCapacity < WORD && monitor.selfTotalUsage == Charged() % WORD
    }

    /** No entry is charged with less than it takes; under a user limit the charges are nothing or
        strictly less than the capacity. */
    ghost predicate Bounded()
      reads this, monitor
    {
      drift >= 0 && (monitor.userLimit > 0 ==> Charged() == 0 || Charged() < monitor.totalCapacity)
    }

    constructor (rank: int, userLimit: nat, cgroupLimit: size_t, physical: size_t)
      ensures Valid() && Bounded() && fresh(monitor) && this.rank == rank && monitor.userLimit == userLimit
      ensures dict == map[] && backupDict == map[] && drift == 0
      ensures var other := if userLimit > 0 then userLimit else physical;
              monitor.totalCapacity == if cgroupLimit < other then cgroupLimit else other
    {
      this.rank := rank;
      monitor := new MemoryMonitor(userLimit, cgroupLimit, physical);
      dict, backupDict := map[], map[];
      drift := 0;
    }

    function Dict(nodeRank: int): map<File, Entry>
      reads this
    {
      if nodeRank == rank then dict else backupDict
    }

    /** False is `LOG_FATAL` for a null address. */
    method Save(file: File, nodeRank: int, entry: Entry) returns (ok: bool)
      modifies this`dict, this`backupDict
      ensures ok <==> entry.address != 0
      ensures Dict(nodeRank) == if ok then old(Dict(nodeRank))[file := entry] else old(Dict(nodeRank))
      ensures if nodeRank == rank then backupDict == old(backupDict) else dict == old(dict)
    {
      if entry.address == 0 { return false; }
      if nodeRank == rank {
        dict := dict[file := entry];
        return true;
      }
      backupDict := backupDict[file := entry];
      ok := true;
    }

    method Load(file: File, nodeRank: int) returns (found: Lookup)
      ensures found == if file == "" then Ended
                       else if file in Dict(nodeRank) then Found(Dict(nodeRank)[file]) else Missing
    {
      if |file| == 0 { return Ended; }
      if nodeRank == rank {
        if file !in dict { return Missing; }
        return Found(dict[file]);
      }
      if file !in backupDict { return Missing; }
      found := Found(backupDict[file]);
    }

    /** Which entry `Delete` frees: an owner without its own copy falls through to the backups. */
    function Victim(file: File, nodeRank: int): Option<Entry>
      reads this
    {
      if nodeRank == rank && file in dict then Some(dict[file])
      else if file in backupDict then Some(backupDict[file])
      else None
    }

    /** `size` is the row's, which need not be the entry's; the counter is discharged by it all the
        same. False is `LOG_FATAL` for an empty name. */
    method Delete(file: File, nodeRank: int, size: size_t) returns (ok: bool)
      requires Valid()
      modifies this, monitor
      ensures Valid() && (ok <==> file != "")
      ensures var victim := if file == "" then None else old(Victim(file, nodeRank));
              && Charged() == old(Charged()) - (if victim.Some? then size else 0)
              && drift == old(drift) + (if victim.Some? then victim.value.size - size else 0)
              && (old(Bounded()) && (victim.Some? ==> victim.value.size == size) ==> Bounded())
      ensures if file == "" then dict == old(dict) && backupDict == old(backupDict)
              else if nodeRank == rank && file in old(dict)
              then dict == old(dict) - {file} && backupDict == old(backupDict)
              else dict == old(dict) && backupDict == old(backupDict) - {file}
    {
      hide Total;
      if |file| == 0 { return false; }
      if nodeRank == rank {
        if file in dict {
          TotalFrom(dict, file);
          FreeModulo(Charged(), size);
          drift := drift + dict[file].size - size;
          monitor.MemfdFree(size);
          dict := dict - {file};
          return true;
        }
      }
      if file in backupDict {
        TotalFrom(backupDict, file);
        FreeModulo(Charged(), size);
        drift := drift + backupDict[file].size - size;
        monitor.MemfdFree(size);
        backupDict := backupDict - {file};
      }
      assert file !in old(backupDict) ==> backupDict - {file} == backupDict;
      ok := true;
    }

    /** What the save and the backup handlers do to get memory for a file: resize the memory file of its
        entry, which charges nothing, or allocate one and save it. `address` is where the system maps it. */
    method Allocate(file: File, nodeRank: int, size: size_t, usage: size_t, systemOk: bool, address: nat)
      returns (code: Code)
      requires Valid() && (systemOk ==> address != 0)
      modifies this, monitor
      ensures Valid() && (code == Fatal <==> file == "")
      ensures if nodeRank == rank then backupDict == old(backupDict) else dict == old(dict)
      ensures code != Success ==> dict == old(dict) && backupDict == old(backupDict)
      ensures code == Success ==>
                var was := old(Dict(nodeRank));
                Dict(nodeRank) == was[file := if file in was then was[file].(size := size) else Entry(address, size)]
      ensures file in old(Dict(nodeRank)) ==>
                Charged() == old(Charged()) && (code == Success && old(Dict(nodeRank))[file].size == size ==>
                  dict == old(dict) && backupDict == old(backupDict) && drift == old(drift))
      ensures file !in old(Dict(nodeRank)) ==>
                && drift == old(drift) + (if code == UnknownError then size else 0)
                && Charged() == old(Charged()) + (if code in {Success, UnknownError} then size else 0)
      ensures var idle := (monitor.totalCapacity
                           - (if monitor.userLimit > 0 then old(monitor.selfTotalUsage) else usage)) % WORD;
              file != "" && file !in old(Dict(nodeRank)) ==>
                && (code == OutOfMemory <==> idle <= size)
                && (code == Success <==> idle > size && size > 0 && systemOk)
      ensures file != "" && file in old(Dict(nodeRank)) ==>
                && (code == Success <==> size > 0 && (size == old(Dict(nodeRank))[file].size || systemOk))
                && code != OutOfMemory
      ensures old(Bounded()) && (file in old(Dict(nodeRank)) ==> old(Dict(nodeRank))[file].size == size) ==> Bounded()
    {
      hide Total;
      var found := Load(file, nodeRank);
      if found.Ended? { return Fatal; }
      if found.Found? {
        code := Resize(file, nodeRank, size, systemOk);
        return;
      }
      ghost var before, bounded := Charged(), Bounded();
      code := monitor.TryMemfdMalloc(size, usage, systemOk);
      if code == OutOfMemory { return; }
      TotalAtLeast(dict, backupDict);
      if bounded { Fits(before, size, monitor); }
      ChargeModulo(before, size);
      if code == UnknownError {
        drift := drift + size;
        return;
      }
      TotalInsert(Dict(nodeRank), file, Entry(address, size));
      var ok := Save(file, nodeRank, Entry(address, size));
    }

    /** `memfdFtruncate` of the entry's memory file. */
    method Resize(file: File, nodeRank: int, size: size_t, systemOk: bool) returns (code: Code)
      requires Valid() && file in Dict(nodeRank)
      modifies this
      ensures Valid() && Charged() == old(Charged())
      ensures code == if size > 0 && (old(Dict(nodeRank))[file].size == size || systemOk) then Success else UnknownError
      ensures if nodeRank == rank then backupDict == old(backupDict) else dict == old(dict)
      ensures var was := old(Dict(nodeRank));
              Dict(nodeRank) == if code == Success then was[file := was[file].(size := size)] else was
      ensures drift == old(drift) + if code == Success then old(Dict(nodeRank))[file].size - size else 0
    {
      hide Total;
      if size <= 0 { return UnknownError; }
      var entry := Dict(nodeRank)[file];
      if entry.size != size && !systemOk { return UnknownError; }
      TotalUpdate(Dict(nodeRank), file, entry.(size := size));
      drift := drift + entry.size - size;
      if nodeRank == rank {
        dict := dict[file := entry.(size := size)];
      } else {
        backupDict := backupDict[file := entry.(size := size)];
      }
      code := Success;
    }

    lemma FreeModulo(total: int, size: size_t)
      ensures (total % WORD - size) % WORD == (total - size) % WORD
    {
    }

    lemma ChargeModulo(total: int, size: size_t)
      ensures (total % WORD + size) % WORD == (total + size) % WORD
    {
    }

    /** Charging `size` bytes that passed the test keeps the bound. */
    lemma Fits(before: nat, size: size_t, m: MemoryMonitor)
      requires m.totalCapacity < WORD
      requires m.userLimit > 0 ==> before == 0 || before < m.totalCapacity
      requires m.userLimit > 0 ==> (m.totalCapacity - before % WORD) % WORD > size
      ensures m.userLimit > 0 ==> before + size < m.totalCapacity
    {
    }
  }

  // ---------------------------------------------------------------- every sequence of operations

  datatype Op =
    | AllocateOp(file: File, nodeRank: int, size: size_t, usage: size_t, systemOk: bool)
    | DeleteOp(file: File, nodeRank: int)

  /** Every entry has the size that `sizes` gives its file. */
  ghost predicate Sized(store: Store, sizes: map<File, size_t>)
    reads store
  {
    && (forall f :: f in store.dict ==> f in sizes && store.dict[f].size == sizes[f])
    && (forall f :: f in store.backupDict ==> f in sizes && store.backupDict[f].size == sizes[f])
  }

  predicate SizeFits(op: Op, sizes: map<File, size_t>) {
    op.file in sizes && (op.AllocateOp? ==> op.size == sizes[op.file])
  }

  /** An allocation that only memory can refuse. */
  predicate Smooth(op: Op) { op.AllocateOp? ==> op.systemOk && op.size > 0 }

  /** What a store holds, and what its counter holds beyond that. */
  datatype Books = Books(dict: map<File, Entry>, backupDict: map<File, Entry>, drift: int)

  /** One operation under a user limit that makes the capacity `cap`: a file without an entry gets one if
      what is charged, with its size, stays below the capacity. */
  ghost function Step(b: Books, rank: int, cap: nat, op: Op): Books {
    match op
    case AllocateOp(file, nodeRank, size, _, systemOk) =>
      var used := Total(b.dict) + Total(b.backupDict) + b.drift;
      if file in (if nodeRank == rank then b.dict else b.backupDict) || used + size >= cap then b
      else if size == 0 || !systemOk then b.(drift := b.drift + size)
      else if nodeRank == rank then b.(dict := b.dict[file := Entry(1, size)])
      else b.(backupDict := b.backupDict[file := Entry(1, size)])
    case DeleteOp(file, nodeRank) =>
      if nodeRank == rank && file in b.dict then b.(dict := b.dict - {file})
      else b.(backupDict := b.backupDict - {file})
  }

  /** The operations one after the other. */
  ghost function Steps(b: Books, rank: int, cap: nat, ops: seq<Op>): Books {
    if ops == [] then b else Step(Steps(b, rank, cap, ops[..|ops| - 1]), rank, cap, ops[|ops| - 1])
  }

  ghost function BooksOf(store: Store): Books
    reads store
  {
    Books(store.dict, store.backupDict, store.drift)
  }

  method Perform(store: Store, op: Op, sizes: map<File, size_t>) returns (alive: bool)
    requires store.Valid() && store.Bounded() && Sized(store, sizes) && SizeFits(op, sizes)
    modifies store, store.monitor
    ensures store.Valid() && store.Bounded() && Sized(store, sizes) && (alive <==> op.file != "")
    ensures Smooth(op) ==> store.drift == old(store.drift)
    ensures store.monitor.userLimit > 0 && alive ==>
              BooksOf(store) == Step(old(BooksOf(store)), store.rank, store.monitor.totalCapacity, op)
    ensures !alive ==> BooksOf(store) == old(BooksOf(store))
  {
    hide Total;
    match op {
      case AllocateOp(file, nodeRank, size, usage, systemOk) =>
        if store.monitor.userLimit > 0 { IdleIffBelow(store, size); }
        var code := store.Allocate(file, nodeRank, size, usage, systemOk, 1);
        alive := code != Fatal;
      case DeleteOp(file, nodeRank) =>
        alive := store.Delete(file, nodeRank, sizes[file]);
    }
  }

  lemma IdleIffBelow(store: Store, size: size_t)
    requires store.Valid() && store.Bounded() && store.monitor.userLimit > 0
    ensures (store.monitor.totalCapacity - store.monitor.selfTotalUsage) % WORD <= size
       <==> store.Charged() + size >= store.monitor.totalCapacity
  {
  }

  /** Any operations, with the size of each file fixed by `sizes`, up to a call that ends the process, which
      is one for an empty name: under a user limit the store ends up as the operations alone determine it,
      and the counter is exactly the sum of the live entries, plus what was charged for allocations that
      failed, and is 0 or strictly below the capacity. */
  method Run(store: Store, ops: seq<Op>, sizes: map<File, size_t>) returns (done: nat)
    requires store.Valid() && store.Bounded() && store.drift == 0 && store.dict == map[] && store.backupDict == map[]
    requires forall i :: 0 <= i < |ops| ==> SizeFits(ops[i], sizes)
    modifies store, store.monitor
    ensures done <= |ops| && (forall i :: 0 <= i < done ==> ops[i].file != "")
    ensures done < |ops| ==> ops[done].file == ""
    ensures store.monitor.userLimit > 0 ==>
              var usage := store.monitor.selfTotalUsage;
              && BooksOf(store) == Steps(Books(map[], map[], 0), store.rank, store.monitor.totalCapacity, ops[..done])
              && usage == Total(store.dict) + Total(store.backupDict) + store.drift && store.drift >= 0
              && (usage == 0 || usage < store.monitor.totalCapacity)
    ensures (forall i :: 0 <= i < |ops| ==> Smooth(ops[i])) ==> store.drift == 0
  {
    hide Step, Total;
    ghost var smooth := forall i :: 0 <= i < |ops| ==> Smooth(ops[i]);
    done := 0;
    while done < |ops|
      invariant done <= |ops| && forall i :: 0 <= i < done ==> ops[i].file != ""
      invariant store.Valid() && store.Bounded() && Sized(store, sizes) && (smooth ==> store.drift == 0)
      invariant store.monitor.userLimit > 0 ==>
                  BooksOf(store) == Steps(Books(map[], map[], 0), store.rank, store.monitor.totalCapacity, ops[..done])
    {
      var alive := Perform(store, ops[done], sizes);
      if !alive { break; }
      assert ops[..done + 1][..done] == ops[..done];
      done := done + 1;
    }
    TotalAtLeast(store.dict, store.backupDict);
  }
}
