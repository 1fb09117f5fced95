/** The batching sender, one call at a time: what is flushed and what is pending is what was sent,
    and a call to `Send` never leaves a batch at or over a threshold. */
module BatchSender {
  import opened Wrappers
  import LocalQueue

  type Bytes = LocalQueue.Bytes

  datatype Config = Config(maxBatchBytes: int, maxBatchCount: int, flushInterval: int)

  const MILLISECOND := 1_000_000

  function WithDefaults(c: Config): (r: Config)
    ensures r.maxBatchBytes > 0 && r.maxBatchCount > 0 && r.flushInterval != 0
    ensures c.maxBatchBytes > 0 ==> r.maxBatchBytes == c.maxBatchBytes
    ensures c.maxBatchCount > 0 ==> r.maxBatchCount == c.maxBatchCount
    ensures c.flushInterval != 0 ==> r.flushInterval == c.flushInterval
  {
    Config(if c.maxBatchBytes <= 0 then 32 * 1024 else c.maxBatchBytes,
           if c.maxBatchCount <= 0 then 32 else c.maxBatchCount,
           if c.flushInterval == 0 then 5 * MILLISECOND else c.flushInterval)
  }

  /** `flushed` has the payloads given to the flush function, in order. */
  datatype Batch = Batch(pending: Bytes, count: nat, deadline: Option<int>, flushed: seq<Bytes>)

  const IDLE := Batch([], 0, None, [])

  /** The clock is read once when a batch starts and once when the thresholds are checked. */
  datatype Call = Send(data: Bytes, started: int, checked: int) | Flush

  function Dispatched(b: Batch): Batch { Batch([], 0, None, b.flushed + [b.pending]) }

  function Step(cfg: Config, b: Batch, c: Call): Batch {
    match c
    case Flush => if b.count == 0 then b else Dispatched(b)
    case Send(data, started, checked) =>
      if data == [] then b
      else
        var deadline := if b.count == 0 && cfg.flushInterval > 0 then Some(started + cfg.flushInterval) else b.deadline;
        var grown := b.(pending := b.pending + data, count := b.count + 1, deadline := deadline);
        var due := cfg.flushInterval > 0 && deadline.Some? && checked > deadline.value;
        var full := |grown.pending| >= cfg.maxBatchBytes || grown.count >= cfg.maxBatchCount;
        if full || due then Dispatched(grown) else grown
  }

  function Run(cfg: Config, b: Batch, calls: seq<Call>): Batch
    decreases |calls|
  {
    if calls == [] then b else Run(cfg, Step(cfg, b, calls[0]), calls[1..])
  }

  function Sent(calls: seq<Call>): Bytes {
    if calls == [] then [] else (if calls[0].Send? then calls[0].data else []) + Sent(calls[1..])
  }

  /** Below both thresholds; and a batch is empty exactly when it has no messages. */
  ghost predicate Below(cfg: Config, b: Batch) {
    && |b.pending| < cfg.maxBatchBytes && b.count < cfg.maxBatchCount
    && (b.count == 0 <==> b.pending == []) && (b.count == 0 ==> b.deadline.None?)
    && forall i | 0 <= i < |b.flushed| :: b.flushed[i] != []
  }

  lemma StepConservesBytes(cfg: Config, b: Batch, c: Call)
    requires cfg.maxBatchBytes > 0 && cfg.maxBatchCount > 0 && Below(cfg, b)
    ensures var t := Step(cfg, b, c);
      && Below(cfg, t)
      && LocalQueue.Concat(t.flushed) + t.pending ==
           (LocalQueue.Concat(b.flushed) + b.pending) + if c.Send? then c.data else []
  {
    LocalQueue.ConcatAppend(b.flushed, b.pending);
    if c.Send? {
      LocalQueue.ConcatAppend(b.flushed, b.pending + c.data);
      assert (LocalQueue.Concat(b.flushed) + b.pending) + c.data == LocalQueue.Concat(b.flushed) + (b.pending + c.data);
    }
  }

  /** Whatever the clock says and wherever flushes fall: the flushed payloads, none of them empty,
      and the pending bytes are together exactly the bytes sent, in order; and what is pending
      stays below both thresholds. */
  lemma {:induction false} EveryRunConservesBytes(cfg: Config, b: Batch, calls: seq<Call>)
    requires cfg.maxBatchBytes > 0 && cfg.maxBatchCount > 0 && Below(cfg, b)
    ensures var t := Run(cfg, b, calls);
      && Below(cfg, t)
      && LocalQueue.Concat(t.flushed) + t.pending == (LocalQueue.Concat(b.flushed) + b.pending) + Sent(calls)
    decreases |calls|
  {
    if calls == [] {
      assert (LocalQueue.Concat(b.flushed) + b.pending) + Sent(calls) == LocalQueue.Concat(b.flushed) + b.pending;
    } else {
      StepConservesBytes(cfg, b, calls[0]);
      EveryRunConservesBytes(cfg, Step(cfg, b, calls[0]), calls[1..]);
      var first := if calls[0].Send? then calls[0].data else [];
      assert ((LocalQueue.Concat(b.flushed) + b.pending) + first) + Sent(calls[1..]) ==
          (LocalQueue.Concat(b.flushed) + b.pending) + (first + Sent(calls[1..]));
    }
  }

  /** A final flush leaves nothing behind. */
  lemma FlushDeliversAll(given: Config, calls: seq<Call>)
    ensures var cfg := WithDefaults(given);
      LocalQueue.Concat(Step(cfg, Run(cfg, IDLE, calls), Flush).flushed) == Sent(calls)
  {
    var cfg := WithDefaults(given);
    EveryRunConservesBytes(cfg, IDLE, calls);
    var b := Run(cfg, IDLE, calls);
    StepConservesBytes(cfg, b, Flush);
    var done := Step(cfg, b, Flush);
    assert done.pending == [] && LocalQueue.Concat(done.flushed) + done.pending == LocalQueue.Concat(done.flushed);
    assert (LocalQueue.Concat(b.flushed) + b.pending) + [] == LocalQueue.Concat(b.flushed) + b.pending;
    assert (LocalQueue.Concat(IDLE.flushed) + IDLE.pending) + Sent(calls) == Sent(calls);
  }

  // ---------- when a batch is sent ----------

  /** The clock reading with which the pending batch began, that of its first message; `began` is the one
      so far. */
  function Began(cfg: Config, b: Batch, calls: seq<Call>, began: int): int
    decreases |calls|
  {
    if calls == [] then began
    else
      var first := calls[0].Send? && calls[0].data != [] && b.count == 0;
      Began(cfg, Step(cfg, b, calls[0]), calls[1..], if first then calls[0].started else began)
  }

  /** A pending batch is due one interval after it began; without an interval it never is. */
  ghost predicate Armed(cfg: Config, b: Batch, began: int) {
    && (b.count > 0 && cfg.flushInterval > 0 ==> b.deadline == Some(began + cfg.flushInterval))
    && (cfg.flushInterval <= 0 ==> b.deadline.None?)
  }

  lemma {:induction false} DeadlineIsOfTheFirst(cfg: Config, b: Batch, calls: seq<Call>, began: int)
    requires Armed(cfg, b, began)
    ensures Armed(cfg, Run(cfg, b, calls), Began(cfg, b, calls, began))
    decreases |calls|
  {
    if calls == [] {
    } else {
      var first := calls[0].Send? && calls[0].data != [] && b.count == 0;
      DeadlineIsOfTheFirst(cfg, Step(cfg, b, calls[0]), calls[1..], if first then calls[0].started else began);
    }
  }

  /** After any calls, a message makes the sender flush exactly if the batch with it reaches the bytes or
      the messages of a batch, or the clock is past one interval after the batch began; then the batch with
      it is the payload, otherwise it is what is pending. */
  lemma FlushesIff(given: Config, calls: seq<Call>, data: Bytes, started: int, checked: int)
    requires data != []
    ensures var cfg := WithDefaults(given);
      var b := Run(cfg, IDLE, calls);
      var t := Step(cfg, b, Call.Send(data, started, checked));
      var began := if b.count == 0 then started else Began(cfg, IDLE, calls, 0);
      var overdue := cfg.flushInterval > 0 && checked > began + cfg.flushInterval;
      if |b.pending| + |data| >= cfg.maxBatchBytes || b.count + 1 >= cfg.maxBatchCount || overdue
      then t.flushed == b.flushed + [b.pending + data] && t.pending == [] && t.count == 0
      else t.flushed == b.flushed && t.pending == b.pending + data && t.count == b.count + 1
  {
    DeadlineIsOfTheFirst(WithDefaults(given), IDLE, calls, 0);
  }

  /** The sender's fields; `delivered` stands for the flush function. */
  class Sender {
    const cfg: Config
    var pending: Bytes
    var count: nat
    var deadline: Option<int>
    var flushes: nat
    var bytesOut: nat
    var msgsIn: nat
    var delivered: seq<Bytes>

    ghost function View(): Batch
      reads this
    {
      Batch(pending, count, deadline, delivered)
    }

    ghost predicate Valid()
      reads this
    {
      && cfg.maxBatchBytes > 0 && cfg.maxBatchCount > 0 && Below(cfg, View())
      && flushes == |delivered| && bytesOut == |LocalQueue.Concat(delivered)|
    }

    constructor (given: Config)
      ensures Valid() && View() == IDLE && cfg == WithDefaults(given) && msgsIn == 0
    {
      cfg := WithDefaults(given);
      pending, count, deadline, delivered := [], 0, None, [];
      flushes, bytesOut, msgsIn := 0, 0, 0;
    }

    method Send(data: Bytes, started: int, checked: int)
      requires Valid()
      modifies this
      ensures Valid() && View() == Step(cfg, old(View()), Call.Send(data, started, checked))
      ensures msgsIn == old(msgsIn) + if data == [] then 0 else 1
    {
      StepConservesBytes(cfg, View(), Call.Send(data, started, checked));
      if |data| == 0 { return; }
      msgsIn := msgsIn + 1;
      if count == 0 && cfg.flushInterval > 0 { deadline := Some(started + cfg.flushInterval); }
      pending := pending + data;
      count := count + 1;
      var flushNow := |pending| >= cfg.maxBatchBytes || count >= cfg.maxBatchCount
        || (cfg.flushInterval > 0 && deadline.Some? && checked > deadline.value);
      if !flushNow { return; }
      var payload := pending;
      pending, count, deadline := [], 0, None;
      Dispatch(payload);
    }

    method FlushPending()
      requires Valid()
      modifies this
      ensures Valid() && View() == Step(cfg, old(View()), Flush) && msgsIn == old(msgsIn)
    {
      StepConservesBytes(cfg, View(), Flush);
      if count == 0 { return; }
      var payload := pending;
      pending, count, deadline := [], 0, None;
      Dispatch(payload);
    }

    method Dispatch(payload: Bytes)
      requires flushes == |delivered| && bytesOut == |LocalQueue.Concat(delivered)|
      modifies this`flushes, this`bytesOut, this`delivered
      ensures delivered == old(delivered) + [payload] && flushes == |delivered|
          && bytesOut == |LocalQueue.Concat(delivered)|
    {
      LocalQueue.ConcatAppend(delivered, payload);
      flushes := flushes + 1;
      bytesOut := bytesOut + |payload|;
      delivered := delivered + [payload];
    }
  }
}
