/** Bytes accepted for an external connection but not yet written to its socket.  Any number of
    senders add first, check the sum they got back, and roll back when it is too large; a write
    that completes subtracts its bytes.  Every addition to the counter is one atomic step. */
module PendingBytes {

  const MAX_PENDING_BYTES := 4 * 1024 * 1024

  /** What a sender still owes the counter after its addition. */
  datatype Send = Writing(bytes: nat) | RollingBack(bytes: nat)

  datatype Pending = Pending(counter: int, sends: seq<Send>)

  datatype Label = Add(bytes: nat) | Settle(i: nat)

  function InFlight(sends: seq<Send>): nat {
    if sends == [] then 0 else (if sends[0].Writing? then sends[0].bytes else 0) + InFlight(sends[1..])
  }

  function NotRolledBack(sends: seq<Send>): nat {
    if sends == [] then 0 else (if sends[0].RollingBack? then sends[0].bytes else 0) + NotRolledBack(sends[1..])
  }

  /** `addAndGet` and the comparison that follows it; the sum the sender sees decides. */
  function AddBytes(s: Pending, bytes: nat): (Pending, bool) {
    var sum := s.counter + bytes;
    if sum > MAX_PENDING_BYTES then (Pending(sum, s.sends + [RollingBack(bytes)]), false)
    else (Pending(sum, s.sends + [Writing(bytes)]), true)
  }

  /** A completed write, or a rollback, takes its own bytes off the counter. */
  function Settled(s: Pending, i: nat): Pending
    requires i < |s.sends|
  {
    Pending(s.counter - s.sends[i].bytes, s.sends[..i] + s.sends[i + 1..])
  }

  function Step(s: Pending, l: Label): Pending {
    match l
    case Add(bytes) => AddBytes(s, bytes).0
    case Settle(i) => if i < |s.sends| then Settled(s, i) else s
  }

  function Run(s: Pending, labels: seq<Label>): Pending
    decreases |labels|
  {
    if labels == [] then s else Run(Step(s, labels[0]), labels[1..])
  }

  ghost predicate Bounded(s: Pending) {
    && s.counter == InFlight(s.sends) + NotRolledBack(s.sends)
    && InFlight(s.sends) <= MAX_PENDING_BYTES
  }

  lemma {:induction false} SumsSplit(a: seq<Send>, b: seq<Send>)
    ensures InFlight(a + b) == InFlight(a) + InFlight(b)
    ensures NotRolledBack(a + b) == NotRolledBack(a) + NotRolledBack(b)
  {
    if a == [] {
      assert a + b == b;
    } else {
      assert (a + b)[1..] == a[1..] + b;
      SumsSplit(a[1..], b);
    }
  }

  lemma StepKeepsBounded(s: Pending, l: Label)
    requires Bounded(s)
    ensures Bounded(Step(s, l))
  {
    match l
    case Add(bytes) =>
      SumsSplit(s.sends, [Writing(bytes)]);
      SumsSplit(s.sends, [RollingBack(bytes)]);
    case Settle(i) =>
      if i < |s.sends| {
        assert s.sends == s.sends[..i] + ([s.sends[i]] + s.sends[i + 1..]);
        SumsSplit(s.sends[..i], [s.sends[i]] + s.sends[i + 1..]);
        SumsSplit([s.sends[i]], s.sends[i + 1..]);
        SumsSplit(s.sends[..i], s.sends[i + 1..]);
      }
  }

  /** However many senders interleave, accepted unfinished bytes never exceed 4 MiB, the counter
      is those bytes plus the rejected ones not yet rolled back, and it returns to zero. */
  lemma {:induction false} AcceptedBytesAreBounded(labels: seq<Label>, s: Pending)
    requires Bounded(s)
    ensures var s' := Run(s, labels); Bounded(s') && (s'.sends == [] ==> s'.counter == 0)
    decreases |labels|
  {
    if labels == [] {
    } else {
      StepKeepsBounded(s, labels[0]);
      AcceptedBytesAreBounded(labels[1..], Step(s, labels[0]));
    }
  }

  /** A send is accepted exactly when it fits beside everything still counted; rejected bytes
      that have not been rolled back yet can make others fail, but never let one through. */
  lemma AcceptedIff(s: Pending, bytes: nat)
    requires Bounded(s)
    ensures AddBytes(s, bytes).1 <==> InFlight(s.sends) + NotRolledBack(s.sends) + bytes <= MAX_PENDING_BYTES
  {
  }

  function Settlements(n: nat): seq<Label> { if n == 0 then [] else [Settle(0)] + Settlements(n - 1) }

  /** When all writes have completed and all rollbacks are done, in whatever order they were begun, nothing
      is counted any more. */
  lemma {:induction false} AllSettled(s: Pending)
    requires Bounded(s)
    ensures var t := Run(s, Settlements(|s.sends|)); t.sends == [] && t.counter == 0
    decreases |s.sends|
  {
    if s.sends == [] {
    } else {
      hide InFlight; hide NotRolledBack;
      StepKeepsBounded(s, Settle(0));
      assert Settlements(|s.sends|)[1..] == Settlements(|s.sends| - 1);
      AllSettled(Step(s, Settle(0)));
    }
  }
}
