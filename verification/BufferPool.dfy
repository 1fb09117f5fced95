/** The batching sender and its pooled buffers under concurrency.  Buffers are identities with
    contents in memory: a sender appends under the sender's lock, the buffer it takes is written
    out after the lock is released and goes back to the pool when the flush function returns.
    Other users of the process-wide pool borrow, overwrite and return buffers as they please. */
module BufferPool {
  import opened Wrappers
  import LocalQueue

  type Bytes = LocalQueue.Bytes
  type Buffer = int

  const POOL_SIZE := 16 * 1024
  const MAX_POOLED := 1024 * 1024

  datatype Memory = Memory(capacity: nat, content: Bytes)

  /** A batch on its way out: its buffer, and what it held when it was taken. */
  datatype Parcel = Parcel(buffer: Buffer, payload: Bytes)

  datatype Limits = Limits(maxBatchBytes: nat, maxBatchCount: nat)

  /** `sent` and `taken` are history: everything sent, and the payloads taken, both in the order
      of the sender's lock. */
  datatype State = State(
    memory: map<Buffer, Memory>,
    idle: set<Buffer>,
    lent: set<Buffer>,
    pending: Buffer,
    count: nat,
    leaving: seq<Parcel>,
    sent: Bytes,
    taken: seq<Bytes>)

  /** `pick` is the pool's choice, `None` when it has nothing and makes a buffer; `made` is the
      identity a new buffer would get. */
  datatype Get = Get(pick: Option<Buffer>, made: Buffer)

  datatype Label =
    | Send(data: Bytes, due: bool, grown: Buffer, get: Get)
    | Flush(get: Get)
    | EndDispatch(i: nat)
    | Borrow(minCap: nat, get: Get) | Scribble(buffer: Buffer, content: Bytes) | Return(buffer: Buffer)
    | Collect(buffer: Buffer)

  /** The pool hands out `get.pick` if it has it; too small a buffer is dropped for a new one. */
  predicate CanGet(s: State, g: Get) {
    g.made !in s.memory && (g.pick.Some? ==> g.pick.value in s.idle && g.pick.value in s.memory)
  }

  function GetBuffer(s: State, minCap: nat, g: Get): (State, Buffer)
    requires CanGet(s, g)
  {
    var t := if g.pick.Some? then s.(idle := s.idle - {g.pick.value}) else s;
    var capacity := if g.pick.Some? then s.memory[g.pick.value].capacity else POOL_SIZE;
    if g.pick.None? || capacity < minCap then
      (t.(memory := t.memory[g.made := Memory(if capacity < minCap then minCap else capacity, [])]), g.made)
    else (t.(memory := t.memory[g.pick.value := Memory(capacity, [])]), g.pick.value)
  }

  function PutBuffer(s: State, b: Buffer): State
    requires b in s.memory
  {
    var capacity := s.memory[b].capacity;
    if capacity == 0 || capacity > MAX_POOLED then s else s.(idle := s.idle + {b})
  }

  /** `append`: in place while the capacity lasts, into a new and larger buffer otherwise. */
  function Append(s: State, data: Bytes, grown: Buffer): State
    requires s.pending in s.memory
  {
    var m := s.memory[s.pending];
    var content := m.content + data;
    if |content| <= m.capacity then s.(memory := s.memory[s.pending := Memory(m.capacity, content)])
    else s.(memory := s.memory[grown := Memory(2 * |content|, content)], pending := grown)
  }

  /** The pending batch leaves and a fresh buffer takes its place, all under the lock. */
  function Take(limits: Limits, s: State, g: Get): State
    requires s.pending in s.memory && CanGet(s, g)
  {
    var payload := s.memory[s.pending].content;
    var (t, b) := GetBuffer(s, limits.maxBatchBytes, g);
    t.(pending := b, count := 0, leaving := s.leaving + [Parcel(s.pending, payload)], taken := s.taken + [payload])
  }

  function Step(limits: Limits, s: State, l: Label): State {
    if s.pending !in s.memory then s else
    match l
    case Send(data, due, grown, get) =>
      if data == [] || grown in s.memory || grown == get.made then s
      else
        var t := Append(s, data, grown).(count := s.count + 1, sent := s.sent + data);
        if |t.memory[t.pending].content| >= limits.maxBatchBytes || t.count >= limits.maxBatchCount || due then
          if CanGet(t, get) then Take(limits, t, get) else s
        else t
    case Flush(get) => if s.count == 0 || !CanGet(s, get) then s else Take(limits, s, get)
    case EndDispatch(i) =>
      if i >= |s.leaving| || s.leaving[i].buffer !in s.memory then s
      else PutBuffer(s, s.leaving[i].buffer).(leaving := s.leaving[..i] + s.leaving[i + 1..])
    case Borrow(minCap, get) =>
      if !CanGet(s, get) then s else var (t, b) := GetBuffer(s, minCap, get); t.(lent := t.lent + {b})
    case Scribble(b, content) =>
      if b !in s.lent || b !in s.memory || |content| > s.memory[b].capacity then s
      else s.(memory := s.memory[b := s.memory[b].(content := content)])
    case Return(b) => if b !in s.lent || b !in s.memory then s else PutBuffer(s, b).(lent := s.lent - {b})
    case Collect(b) => s.(idle := s.idle - {b})
  }

  function Run(limits: Limits, s: State, labels: seq<Label>): State
    decreases |labels|
  {
    if labels == [] then s else Run(limits, Step(limits, s, labels[0]), labels[1..])
  }

  // ---------- every buffer has one owner ----------

  ghost predicate Exclusive(s: State) {
    && s.pending !in s.idle && s.pending !in s.lent
    && (forall b | b in s.idle :: b !in s.lent && b in s.memory)
    && (forall b | b in s.lent :: b in s.memory)
    && (forall i | 0 <= i < |s.leaving| ::
          var b := s.leaving[i].buffer;
          b in s.memory && b != s.pending && b !in s.idle && b !in s.lent)
    && (forall i, j | 0 <= i < j < |s.leaving| :: s.leaving[i].buffer != s.leaving[j].buffer)
  }

  /** What leaves is what was taken, until it has left; and nothing sent is lost or reordered. */
  ghost predicate Faithful(s: State) {
    && (forall i | 0 <= i < |s.leaving| ::
          s.leaving[i].buffer in s.memory && s.memory[s.leaving[i].buffer].content == s.leaving[i].payload)
    && s.pending in s.memory && LocalQueue.Concat(s.taken) + s.memory[s.pending].content == s.sent
  }

  ghost predicate Inv(s: State) { Exclusive(s) && Faithful(s) }

  lemma AppendKeeps(s: State, data: Bytes, grown: Buffer)
    requires Inv(s) && grown !in s.memory
    ensures Inv(Append(s, data, grown).(count := s.count + 1, sent := s.sent + data))
  {
    var (before, held) := (LocalQueue.Concat(s.taken), s.memory[s.pending].content);
    assert (before + held) + data == before + (held + data);
  }

  lemma TakeKeeps(limits: Limits, s: State, g: Get)
    requires Inv(s) && CanGet(s, g)
    ensures Inv(Take(limits, s, g))
  {
    LocalQueue.ConcatAppend(s.taken, s.memory[s.pending].content);
    var t := Take(limits, s, g);
    assert LocalQueue.Concat(t.taken) + [] == LocalQueue.Concat(t.taken);
  }

  lemma EndKeeps(limits: Limits, s: State, i: nat)
    requires Inv(s)
    ensures Inv(Step(limits, s, EndDispatch(i)))
  {
    if i < |s.leaving| {
      var t := Step(limits, s, EndDispatch(i));
      assert forall j | 0 <= j < |t.leaving| :: t.leaving[j] == s.leaving[if j < i then j else j + 1];
    }
  }

  lemma OthersKeep(limits: Limits, s: State, l: Label)
    requires Inv(s) && (l.Borrow? || l.Scribble? || l.Return? || l.Collect?)
    ensures Inv(Step(limits, s, l))
  {
  }

  lemma StepKeepsInv(limits: Limits, s: State, l: Label)
    requires Inv(s)
    ensures Inv(Step(limits, s, l))
  {
    match l
    case Send(data, due, grown, get) =>
      if grown !in s.memory {
        AppendKeeps(s, data, grown);
        var t := Append(s, data, grown).(count := s.count + 1, sent := s.sent + data);
        if CanGet(t, get) { TakeKeeps(limits, t, get); }
      }
    case Flush(get) => if CanGet(s, get) { TakeKeeps(limits, s, get); }
    case EndDispatch(i) => EndKeeps(limits, s, i);
    case _ => OthersKeep(limits, s, l);
  }

  /** A new sender: its first buffer, and a pool in any state. */
  ghost predicate Started(s: State) {
    && s.pending in s.memory && s.memory[s.pending] == Memory(s.memory[s.pending].capacity, []) && s.count == 0
    && s.pending !in s.idle && s.pending !in s.lent && s.leaving == [] && s.sent == [] && s.taken == []
    && (forall b | b in s.idle :: b !in s.lent && b in s.memory) && (forall b | b in s.lent :: b in s.memory)
  }

  lemma {:induction false} RunKeepsInv(limits: Limits, s: State, labels: seq<Label>)
    requires Inv(s)
    ensures Inv(Run(limits, s, labels))
    decreases |labels|
  {
    if labels == [] {
    } else {
      StepKeepsInv(limits, s, labels[0]);
      RunKeepsInv(limits, Step(limits, s, labels[0]), labels[1..]);
    }
  }

  /** For every interleaving of senders, flushes, dispatches and other pool users: no buffer is
      pending and leaving, pooled or lent at once, no two dispatches share one, each dispatch
      still reads the bytes that were taken, and the taken payloads with the pending bytes are
      all bytes sent, in the order of the lock. */
  lemma EveryRunKeepsBuffersApart(limits: Limits, s: State, labels: seq<Label>)
    requires Started(s)
    ensures var t := Run(limits, s, labels);
      && t.pending in t.memory && t.pending !in t.idle && t.pending !in t.lent
      && (forall i | 0 <= i < |t.leaving| :: var b := t.leaving[i].buffer;
           b != t.pending && b !in t.idle && b !in t.lent && b in t.memory
           && t.memory[b].content == t.leaving[i].payload)
      && (forall i, j | 0 <= i < j < |t.leaving| :: t.leaving[i].buffer != t.leaving[j].buffer)
      && LocalQueue.Concat(t.taken) + t.memory[t.pending].content == t.sent
  {
    RunKeepsInv(limits, s, labels);
  }

  // ---------- what the pool gives and takes ----------

  /** A borrower gets an empty buffer with the room it asked for, which nobody else can get, and it is the
      pooled one whenever that is large enough. */
  lemma BorrowedHasRoom(s: State, minCap: nat, g: Get)
    requires Inv(s) && CanGet(s, g)
    ensures var (t, b) := GetBuffer(s, minCap, g);
      && b in t.memory && t.memory[b].capacity >= minCap && t.memory[b].content == [] && b !in t.idle
      && (b == g.made <==> g.pick.None? || s.memory[g.pick.value].capacity < minCap)
      && (b != g.made ==> b == g.pick.value)
      && (forall other | other in s.memory && other != b :: other in t.memory && t.memory[other] == s.memory[other])
    ensures s.pending in s.memory
    ensures forall limits :: Step(limits, s, Borrow(minCap, g)).lent == s.lent + {GetBuffer(s, minCap, g).1}
  {
  }

  /** A buffer that comes back, from a dispatch or a borrower, is pooled exactly if it has room, and at most
      1 MiB of it. */
  lemma PooledIff(limits: Limits, s: State, i: nat, b: Buffer)
    requires Inv(s)
    ensures i < |s.leaving| ==>
              (s.leaving[i].buffer in Step(limits, s, EndDispatch(i)).idle <==>
                 0 < s.memory[s.leaving[i].buffer].capacity <= MAX_POOLED)
    ensures b in s.lent ==>
              var t := Step(limits, s, Return(b));
              t.lent == s.lent - {b} && (b in t.idle <==> 0 < s.memory[b].capacity <= MAX_POOLED)
  {
  }

  /** A message makes the sender take the batch exactly if the batch with it reaches a threshold or is due. */
  lemma TakenIff(limits: Limits, s: State, data: Bytes, due: bool, grown: Buffer, get: Get)
    requires Inv(s) && data != [] && grown !in s.memory && grown != get.made && CanGet(s, get)
    ensures var t := Step(limits, s, Send(data, due, grown, get));
      var batch := s.memory[s.pending].content + data;
      if |batch| >= limits.maxBatchBytes || s.count + 1 >= limits.maxBatchCount || due
      then t.taken == s.taken + [batch] && t.count == 0
      else t.taken == s.taken && t.count == s.count + 1 && t.pending in t.memory && t.memory[t.pending].content == batch
  {
    AppendKeeps(s, data, grown);
  }

  /** A flush takes whatever is pending, and nothing if there is nothing. */
  lemma FlushTakesPending(limits: Limits, s: State, get: Get)
    requires Inv(s) && CanGet(s, get)
    ensures var t := Step(limits, s, Flush(get));
      t.count == 0 && t.taken == s.taken + if s.count > 0 then [s.memory[s.pending].content] else []
  {
    assert s.taken + [] == s.taken;
  }

  /** The pending buffer always has room for a whole batch. */
  ghost predicate PendingHasRoom(limits: Limits, s: State) {
    s.pending in s.memory && s.memory[s.pending].capacity >= limits.maxBatchBytes
  }

  lemma StepKeepsRoom(limits: Limits, s: State, l: Label)
    requires Inv(s) && PendingHasRoom(limits, s)
    ensures PendingHasRoom(limits, Step(limits, s, l))
  {
  }

  lemma {:induction false} EveryRunKeepsRoom(limits: Limits, s: State, labels: seq<Label>)
    requires Inv(s) && PendingHasRoom(limits, s)
    ensures PendingHasRoom(limits, Run(limits, s, labels))
    decreases |labels|
  {
    if labels == [] {
    } else {
      StepKeepsInv(limits, s, labels[0]);
      StepKeepsRoom(limits, s, labels[0]);
      EveryRunKeepsRoom(limits, Step(limits, s, labels[0]), labels[1..]);
    }
  }

  // ---------- the pool stays small ----------

  /** Every pooled buffer has room, and at most 1 MiB of it. */
  ghost predicate PoolBounded(s: State) {
    forall b | b in s.idle :: b in s.memory && 0 < s.memory[b].capacity <= MAX_POOLED
  }

  lemma TakeKeepsPool(limits: Limits, s: State, g: Get)
    requires Inv(s) && PoolBounded(s) && CanGet(s, g)
    ensures PoolBounded(Take(limits, s, g))
  {
  }

  lemma StepKeepsPool(limits: Limits, s: State, l: Label)
    requires Inv(s) && PoolBounded(s)
    ensures PoolBounded(Step(limits, s, l))
  {
    if l.Send? && l.grown !in s.memory {
      AppendKeeps(s, l.data, l.grown);
      var t := Append(s, l.data, l.grown).(count := s.count + 1, sent := s.sent + l.data);
      if CanGet(t, l.get) { TakeKeepsPool(limits, t, l.get); }
    } else if l.Flush? && CanGet(s, l.get) {
      TakeKeepsPool(limits, s, l.get);
    }
  }

  lemma {:induction false} EveryRunBoundsThePool(limits: Limits, s: State, labels: seq<Label>)
    requires Inv(s) && PoolBounded(s)
    ensures PoolBounded(Run(limits, s, labels))
    decreases |labels|
  {
    if labels == [] {
    } else {
      StepKeepsInv(limits, s, labels[0]);
      StepKeepsPool(limits, s, labels[0]);
      EveryRunBoundsThePool(limits, Step(limits, s, labels[0]), labels[1..]);
    }
  }
}
