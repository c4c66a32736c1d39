/** The bounded channel: its critical sections on mutable state, and every interleaving of them. */
module Channel {
  /** `size` is the separate atomic counter that `empty` and the capacity test read. */
  datatype Chan<T> = Chan(queue: seq<T>, size: int, closed: bool)

  function Empty<T>(): Chan<T> { Chan([], 0, false) }

  /** `waitBeforeWrite` lets a writer through. */
  predicate MayWrite<T>(ch: Chan<T>, cap: nat) { !(cap > 0 && ch.size == cap) }

  /** `waitBeforeRead` lets a reader through. */
  predicate MayRead<T>(ch: Chan<T>) { ch.size != 0 || ch.closed }

  function Pushed<T>(ch: Chan<T>, v: T): Chan<T> { ch.(queue := ch.queue + [v], size := ch.size + 1) }

  function Popped<T>(ch: Chan<T>): Chan<T>
    requires |ch.queue| > 0
  {
    ch.(queue := ch.queue[1..], size := ch.size - 1)
  }

  predicate Consistent<T>(ch: Chan<T>, cap: nat) {
    ch.size == |ch.queue| && (cap > 0 ==> ch.size <= cap)
  }

  class BoundedChannel<T> {
    const cap: nat
    var queue: seq<T>
    var size: int
    var isClosed: bool

    constructor (cap: nat)
      ensures this.cap == cap && Value() == Empty()
    {
      this.cap := cap;
      queue, size, isClosed := [], 0, false;
    }

    function Value(): Chan<T>
      reads this
    {
      Chan(queue, size, isClosed)
    }

    /** The locked part of `operator>>`, entered when `waitBeforeWrite` returns. */
    method Push(v: T)
      requires MayWrite(Value(), cap) && Consistent(Value(), cap)
      modifies this`queue, this`size
      ensures Value() == Pushed(old(Value()), v) && Consistent(Value(), cap)
    {
      queue := queue + [v];
      size := size + 1;
    }

    /** The locked part of `operator<<`, entered when `waitBeforeRead` returns; `dflt` is what the
        variable held before. */
    method Pop(dflt: T) returns (v: T)
      requires MayRead(Value()) && Consistent(Value(), cap)
      modifies this`queue, this`size
      ensures Consistent(Value(), cap)
      ensures if old(queue) == [] then v == dflt && Value() == old(Value())
              else v == old(queue)[0] && Value() == Popped(old(Value()))
    {
      v := dflt;
      if size != 0 {
        v := queue[0];
        queue := queue[1..];
        size := size - 1;
      }
    }

    method Close()
      modifies this`isClosed
      ensures isClosed
    {
      isClosed := true;
    }
  }

  // ---------------------------------------------------------------- interleavings

  /** Where a thread stands: it has passed the unlocked test of an operation, or none. */
  datatype Pc<T> = Ready | Sending(v: T) | Receiving(dflt: T)

  /** What a finished receive returned, and whether it took it from the queue. */
  datatype Yield<T> = Yield(thread: nat, v: T, taken: bool)

  datatype State<T> = State(ch: Chan<T>, pcs: map<nat, Pc<T>>, pushed: seq<T>, popped: seq<T>, received: seq<Yield<T>>)

  datatype Step<T> =
    | BeginSend(t: nat, v: T)
    | FinishSend(t: nat)
    | BeginReceive(t: nat, dflt: T)
    | FinishReceive(t: nat)
    | Close

  function PcOf<T>(s: State<T>, t: nat): Pc<T> { if t in s.pcs then s.pcs[t] else Ready }

  predicate Enabled<T>(cap: nat, s: State<T>, e: Step<T>) {
    match e
    case BeginSend(t, _) => PcOf(s, t).Ready? && !s.ch.closed
    case FinishSend(t) => PcOf(s, t).Sending? && MayWrite(s.ch, cap)
    case BeginReceive(t, _) => PcOf(s, t).Ready?
    case FinishReceive(t) => PcOf(s, t).Receiving? && MayRead(s.ch)
    case Close => true
  }

  function Next<T>(cap: nat, s: State<T>, e: Step<T>): State<T>
    requires Enabled(cap, s, e)
  {
    match e
    case BeginSend(t, v) => s.(pcs := s.pcs[t := Sending(v)])
    case FinishSend(t) =>
      var v := PcOf(s, t).v;
      s.(ch := Pushed(s.ch, v), pcs := s.pcs[t := Ready], pushed := s.pushed + [v])
    case BeginReceive(t, dflt) =>
      if s.ch.closed && s.ch.size == 0 then s.(received := s.received + [Yield(t, dflt, false)])
      else s.(pcs := s.pcs[t := Receiving(dflt)])
    case FinishReceive(t) =>
      var s1 := s.(pcs := s.pcs[t := Ready]);
      if s.ch.size == 0 || s.ch.queue == [] then s1.(received := s.received + [Yield(t, PcOf(s, t).dflt, false)])
      else
        var v := s.ch.queue[0];
        s1.(ch := Popped(s.ch), popped := s.popped + [v], received := s.received + [Yield(t, v, true)])
    case Close => s.(ch := s.ch.(closed := true))
  }

  function Init<T>(): State<T> { State(Empty(), map[], [], [], []) }

  /** The values of the receives that took something, in order. */
  function Taken<T>(ys: seq<Yield<T>>): seq<T> {
    if ys == [] then []
    else Taken(ys[..|ys| - 1]) + if ys[|ys| - 1].taken then [ys[|ys| - 1].v] else []
  }

  ghost predicate Inv<T>(cap: nat, s: State<T>) {
    && Consistent(s.ch, cap)
    && s.popped + s.ch.queue == s.pushed
    && Taken(s.received) == s.popped
    && (!s.ch.closed ==> forall i :: 0 <= i < |s.received| ==> s.received[i].taken)
  }

  lemma TakenSnoc<T>(ys: seq<Yield<T>>, y: Yield<T>)
    ensures Taken(ys + [y]) == Taken(ys) + if y.taken then [y.v] else []
  {
    assert (ys + [y])[..|ys|] == ys;
  }

  lemma SendKeeps<T>(cap: nat, s: State<T>, t: nat)
    requires Inv(cap, s) && Enabled(cap, s, FinishSend(t))
    ensures Inv(cap, Next(cap, s, FinishSend(t)))
  {
    hide Taken;
    var v := PcOf(s, t).v;
    assert s.popped + (s.ch.queue + [v]) == (s.popped + s.ch.queue) + [v];
  }

  lemma ReceiveKeeps<T>(cap: nat, s: State<T>, t: nat)
    requires Inv(cap, s) && Enabled(cap, s, FinishReceive(t))
    ensures Inv(cap, Next(cap, s, FinishReceive(t)))
  {
    hide Taken;
    if s.ch.queue == [] {
      TakenSnoc(s.received, Yield(t, PcOf(s, t).dflt, false));
    } else {
      TakenSnoc(s.received, Yield(t, s.ch.queue[0], true));
      assert s.ch.queue == [s.ch.queue[0]] + s.ch.queue[1..];
      assert (s.popped + [s.ch.queue[0]]) + s.ch.queue[1..] == s.popped + s.ch.queue;
    }
  }

  lemma StepKeeps<T>(cap: nat, s: State<T>, e: Step<T>)
    requires Inv(cap, s) && Enabled(cap, s, e)
    ensures Inv(cap, Next(cap, s, e))
  {
    hide Taken;
    match e
    case FinishSend(t) => SendKeeps(cap, s, t);
    case FinishReceive(t) => ReceiveKeeps(cap, s, t);
    case BeginReceive(t, dflt) => TakenSnoc(s.received, Yield(t, dflt, false));
    case BeginSend(_, _) =>
    case Close =>
  }

  ghost predicate Runs<T>(cap: nat, s: State<T>, es: seq<Step<T>>)
    decreases |es|
  {
    es == [] || (Enabled(cap, s, es[0]) && Runs(cap, Next(cap, s, es[0]), es[1..]))
  }

  ghost function After<T>(cap: nat, s: State<T>, es: seq<Step<T>>): State<T>
    requires Runs(cap, s, es)
    decreases |es|
  {
    if es == [] then s else After(cap, Next(cap, s, es[0]), es[1..])
  }

  lemma {:induction false} RunKeeps<T>(cap: nat, s: State<T>, es: seq<Step<T>>)
    requires Inv(cap, s) && Runs(cap, s, es)
    ensures Inv(cap, After(cap, s, es))
    decreases |es|
  {
    if es != [] {
      StepKeeps(cap, s, es[0]);
      RunKeeps(cap, Next(cap, s, es[0]), es[1..]);
    }
  }

  /** In every interleaving of any number of threads: the values taken so far, then the queue, are
      the values pushed so far, in order; the counter is the queue's length and stays within a
      positive capacity; and as long as the channel is open no receive returns a default. */
  lemma FifoUnderEveryInterleaving<T>(cap: nat, es: seq<Step<T>>)
    requires Runs(cap, Init<T>(), es)
    ensures var s := After(cap, Init<T>(), es);
            && Taken(s.received) + s.ch.queue == s.pushed
            && s.ch.size == |s.ch.queue| && (cap > 0 ==> |s.ch.queue| <= cap)
            && (!s.ch.closed ==> forall i :: 0 <= i < |s.received| ==> s.received[i].taken)
  {
    RunKeeps(cap, Init<T>(), es);
  }

  lemma {:induction false} AllTaken<T>(ys: seq<Yield<T>>)
    requires forall i :: 0 <= i < |ys| ==> ys[i].taken
    ensures |Taken(ys)| == |ys| && forall i :: 0 <= i < |ys| ==> Taken(ys)[i] == ys[i].v
  {
    if ys != [] { AllTaken(ys[..|ys| - 1]); }
  }

  /** On a channel never closed, the k-th receive to finish returns the k-th value pushed. */
  lemma OpenChannelDelivers<T>(cap: nat, es: seq<Step<T>>)
    requires Runs(cap, Init<T>(), es) && !After(cap, Init<T>(), es).ch.closed
    ensures var s := After(cap, Init<T>(), es);
            |s.received| <= |s.pushed| && forall k :: 0 <= k < |s.received| ==> s.received[k].v == s.pushed[k]
  {
    RunKeeps(cap, Init<T>(), es);
    AllTaken(After(cap, Init<T>(), es).received);
  }
}
