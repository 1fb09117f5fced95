/** The bounded queue between the control connection's read loop and one local socket.  Offers
    come from the read loop, the writer takes items one at a time; each method is one step of
    the Go code, and the steps may alternate in any order. */
module LocalQueue {
  import opened Wrappers

  type Bytes = seq<int>

  function Concat(items: seq<Bytes>): Bytes {
    if items == [] then [] else items[0] + Concat(items[1..])
  }

  lemma {:induction false} ConcatAppend(items: seq<Bytes>, last: Bytes)
    ensures Concat(items + [last]) == Concat(items) + last
  {
    if items == [] {
      assert items + [last] == [last];
    } else {
      assert (items + [last])[1..] == items[1..] + [last];
      ConcatAppend(items[1..], last);
    }
  }

  datatype Verdict = Dropped | Overflow | Queued

  /** `accepted` and `written` are history: all bytes accepted for the connection and all bytes
      its socket took, in order; `broken` says that a write failed or fell short. */
  datatype State = State(
    queue: seq<Bytes>,
    queuedBytes: int,
    writing: Option<Bytes>,
    closed: bool,
    broken: bool,
    accepted: Bytes,
    written: Bytes)

  function PendingBytes(s: State): nat { |Concat(s.queue)| + if s.writing.Some? then |s.writing.value| else 0 }

  /** The counter covers what is queued and what is being written, within the limit; and unless
      a write broke off, what is written, being written and queued is all that was accepted. */
  ghost predicate Sound(s: State, byteLimit: nat, itemLimit: nat) {
    && s.queuedBytes == PendingBytes(s) && s.queuedBytes <= byteLimit && |s.queue| <= itemLimit
    && s.written <= s.accepted
    && (!s.broken ==> s.accepted == s.written + (if s.writing.Some? then s.writing.value else []) + Concat(s.queue))
    && (s.broken ==> s.writing.None?)
  }

  datatype Label = Offer(data: Bytes) | Take | Wrote(n: nat, failed: bool) | Close

  function OfferData(s: State, data: Bytes, byteLimit: nat, itemLimit: nat): (State, Verdict) {
    if s.closed then (s, Dropped)
    else if |data| > byteLimit - s.queuedBytes || |s.queue| >= itemLimit then (s, Overflow)
    else (s.(queue := s.queue + [data], queuedBytes := s.queuedBytes + |data|, accepted := s.accepted + data), Queued)
  }

  function Step(s: State, l: Label, byteLimit: nat, itemLimit: nat): State {
    match l
    case Offer(data) => OfferData(s, data, byteLimit, itemLimit).0
    case Take =>
      if s.writing.Some? || s.queue == [] || s.broken then s else s.(queue := s.queue[1..], writing := Some(s.queue[0]))
    case Wrote(n, failed) =>
      if s.writing.None? || n > |s.writing.value| then s
      else
        var data := s.writing.value;
        s.(written := s.written + data[..n], writing := None, queuedBytes := s.queuedBytes - |data|,
           broken := failed || n != |data|)
    case Close => s.(closed := true)
  }

  function Run(s: State, labels: seq<Label>, byteLimit: nat, itemLimit: nat): State
    decreases |labels|
  {
    if labels == [] then s else Run(Step(s, labels[0], byteLimit, itemLimit), labels[1..], byteLimit, itemLimit)
  }

  lemma StepKeepsSound(s: State, l: Label, byteLimit: nat, itemLimit: nat)
    requires Sound(s, byteLimit, itemLimit)
    ensures Sound(Step(s, l, byteLimit, itemLimit), byteLimit, itemLimit)
  {
    match l
    case Offer(data) =>
      ConcatAppend(s.queue, data);
      assert s.broken || s.accepted + data ==
             s.written + (if s.writing.Some? then s.writing.value else []) + (Concat(s.queue) + data);
    case Take =>
    case Wrote(n, failed) =>
      if s.writing.Some? && n <= |s.writing.value| {
        var data := s.writing.value;
        assert data == data[..n] + data[n..];
        assert s.accepted == s.written + data[..n] + (data[n..] + Concat(s.queue));
      }
    case Close =>
  }

  /** For every interleaving of offers, takes, writes (complete, short or failed) and closes: the
      local socket has received a prefix of the accepted bytes, in order, and the byte counter is
      exactly what is queued plus the item being written, never above the limit. */
  lemma {:induction false} WrittenIsPrefixOfAccepted(s: State, labels: seq<Label>, byteLimit: nat, itemLimit: nat)
    requires Sound(s, byteLimit, itemLimit)
    ensures var s' := Run(s, labels, byteLimit, itemLimit);
            s'.written <= s'.accepted && s'.queuedBytes == PendingBytes(s') <= byteLimit
            && Sound(s', byteLimit, itemLimit)
    decreases |labels|
  {
    if labels == [] {
    } else {
      StepKeepsSound(s, labels[0], byteLimit, itemLimit);
      WrittenIsPrefixOfAccepted(Step(s, labels[0], byteLimit, itemLimit), labels[1..], byteLimit, itemLimit);
    }
  }

  /** Data is queued exactly when the connection is open and both limits leave room for it beside
      everything pending, and then exactly its bytes are accepted; otherwise nothing changes. */
  lemma QueuedIff(s: State, data: Bytes, byteLimit: nat, itemLimit: nat)
    requires Sound(s, byteLimit, itemLimit)
    ensures var (after, verdict) := OfferData(s, data, byteLimit, itemLimit);
      && (verdict.Queued? <==> !s.closed && PendingBytes(s) + |data| <= byteLimit && |s.queue| < itemLimit)
      && (verdict.Dropped? <==> s.closed)
      && (if verdict.Queued?
          then after.accepted == s.accepted + data && PendingBytes(after) == PendingBytes(s) + |data|
          else after == s)
  {
    ConcatAppend(s.queue, data);
  }

  /** Nothing accepted is lost while writes succeed: once the writer has caught up, the socket
      has every accepted byte. */
  lemma DrainedMeansDelivered(s: State, byteLimit: nat, itemLimit: nat)
    requires Sound(s, byteLimit, itemLimit) && !s.broken && s.writing.None? && s.queuedBytes == 0
    ensures s.written == s.accepted
  {
  }

  /** From the moment the connection is closed nothing is accepted. */
  lemma {:induction false} NothingIsAcceptedAfterClose(s: State, labels: seq<Label>, byteLimit: nat, itemLimit: nat)
    requires s.closed
    ensures var t := Run(s, labels, byteLimit, itemLimit); t.closed && t.accepted == s.accepted
    decreases |labels|
  {
    if labels == [] {
    } else {
      NothingIsAcceptedAfterClose(Step(s, labels[0], byteLimit, itemLimit), labels[1..], byteLimit, itemLimit);
    }
  }

  /** Closing closes; the writer takes the oldest item, and what its write takes is exactly what the
      socket has more; it stops exactly after a write that failed or fell short. */
  lemma WriterTakesInOrder(s: State, n: nat, failed: bool, byteLimit: nat, itemLimit: nat)
    requires Sound(s, byteLimit, itemLimit) && s.writing.None? && !s.broken && s.queue != [] && n <= |s.queue[0]|
    ensures Step(s, Close, byteLimit, itemLimit) == s.(closed := true)
    ensures var taken := Step(s, Take, byteLimit, itemLimit);
      var t := Step(taken, Wrote(n, failed), byteLimit, itemLimit);
      && PendingBytes(taken) == PendingBytes(s) && PendingBytes(t) == PendingBytes(s) - |s.queue[0]|
      && t.queue == s.queue[1..] && t.written == s.written + s.queue[0][..n] && t.accepted == s.accepted
      && (t.broken <==> failed || n < |s.queue[0]|)
  {
  }

  class ConnectionQueue {
    const byteLimit: nat
    const itemLimit: nat
    var queue: seq<Bytes>
    var queuedBytes: int
    var writing: Option<Bytes>
    var closed: bool
    var broken: bool
    ghost var accepted: Bytes
    ghost var written: Bytes

    ghost function View(): State
      reads this
    {
      State(queue, queuedBytes, writing, closed, broken, accepted, written)
    }

    ghost predicate Valid()
      reads this
    {
      Sound(View(), byteLimit, itemLimit)
    }

    constructor (byteLimit: nat, itemLimit: nat)
      ensures Valid() && View() == State([], 0, None, false, false, [], [])
      ensures this.byteLimit == byteLimit && this.itemLimit == itemLimit
    {
      this.byteLimit, this.itemLimit := byteLimit, itemLimit;
      queue, queuedBytes, writing := [], 0, None;
      closed, broken := false, false;
      accepted, written := [], [];
    }

    /** `forwardToLocal` under the connection's mutex; on Overflow the caller finishes the
        connection. */
    method Forward(data: Bytes) returns (verdict: Verdict)
      requires Valid()
      modifies this
      ensures Valid()
      ensures (View(), verdict) == OfferData(old(View()), data, byteLimit, itemLimit)
    {
      StepKeepsSound(View(), Offer(data), byteLimit, itemLimit);
      if closed { return Dropped; }
      if |data| > byteLimit - queuedBytes { return Overflow; }
      if |queue| >= itemLimit { return Overflow; }
      queue := queue + [data];
      queuedBytes := queuedBytes + |data|;
      accepted := accepted + data;
      return Queued;
    }

    /** The writer receives the next item; the counter still covers it. */
    method TakeNext() returns (data: Option<Bytes>)
      requires Valid() && writing.None? && !broken
      modifies this
      ensures Valid()
      ensures View() == Step(old(View()), Take, byteLimit, itemLimit)
      ensures data == writing && (data.None? <==> old(queue) == [])
    {
      StepKeepsSound(View(), Take, byteLimit, itemLimit);
      if queue == [] { return None; }
      writing := Some(queue[0]);
      queue := queue[1..];
      return writing;
    }

    /** After `conn.Write`: `n` bytes were taken; a short or failed write ends the writer. */
    method Written(n: nat, failed: bool) returns (again: bool)
      requires Valid() && writing.Some? && n <= |writing.value|
      modifies this
      ensures Valid()
      ensures View() == Step(old(View()), Wrote(n, failed), byteLimit, itemLimit)
      ensures again <==> !failed && n == |old(writing).value|
    {
      StepKeepsSound(View(), Wrote(n, failed), byteLimit, itemLimit);
      var data := writing.value;
      written := written + data[..n];
      queuedBytes := queuedBytes - |data|;
      writing := None;
      again := !failed && n == |data|;
      broken := !again;
    }
  }
}
