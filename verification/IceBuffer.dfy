/** Remote ICE candidates before and while the remote description is set, as the client manager
    and the sidecar both handle them: `pendingICEMu` guards the flag and the buffer, a setter
    takes the buffer, and puts it back ahead of whatever came meanwhile if the peer connection
    refuses the description.  Any number of adders and setters may be under way. */
module IceBuffer {
  type Candidate = string

  /** A setter holding what it took: waiting for the peer connection, or handing over. */
  datatype Setter = Setting(taken: seq<Candidate>) | Flushing(taken: seq<Candidate>)

  /** `transit`: adders that saw the flag and hold no lock.  The rest is history: candidates
      buffered in arrival order, flushed in order, handed over directly, refused because there
      was no peer connection, and all that were added. */
  datatype Ice = Ice(
    remoteSet: bool,
    buffer: seq<Candidate>,
    setters: seq<Setter>,
    transit: multiset<Candidate>,
    arrived: seq<Candidate>,
    flushed: seq<Candidate>,
    direct: multiset<Candidate>,
    refused: multiset<Candidate>,
    added: multiset<Candidate>)

  const NEW_PEER := Ice(false, [], [], multiset{}, [], [], multiset{}, multiset{}, multiset{})

  datatype Label =
    | Add(c: Candidate) | Deliver(c: Candidate, hasPeer: bool)
    | Begin | Rejected(i: nat) | Accepted(i: nat) | FlushOne(i: nat) | EndFlush(i: nat)

  function Step(s: Ice, l: Label): Ice {
    match l
    case Add(c) =>
      var s := s.(added := s.added + multiset{c});
      if s.remoteSet then s.(transit := s.transit + multiset{c})
      else s.(buffer := s.buffer + [c], arrived := s.arrived + [c])
    case Deliver(c, hasPeer) =>
      if c !in s.transit then s
      else if hasPeer then s.(transit := s.transit - multiset{c}, direct := s.direct + multiset{c})
      else s.(transit := s.transit - multiset{c}, refused := s.refused + multiset{c})
    case Begin => s.(remoteSet := true, buffer := [], setters := s.setters + [Setting(s.buffer)])
    case Rejected(i) =>
      if i < |s.setters| && s.setters[i].Setting? then
        s.(remoteSet := false, buffer := s.setters[i].taken + s.buffer, setters := s.setters[..i] + s.setters[i + 1..])
      else s
    case Accepted(i) =>
      if i < |s.setters| && s.setters[i].Setting?
          then s.(setters := s.setters[i := Flushing(s.setters[i].taken)]) else s
    case FlushOne(i) =>
      if i < |s.setters| && s.setters[i].Flushing? && s.setters[i].taken != [] then
        s.(flushed := s.flushed + [s.setters[i].taken[0]], setters := s.setters[i := Flushing(s.setters[i].taken[1..])])
      else s
    case EndFlush(i) =>
      if i < |s.setters| && s.setters[i].Flushing? && s.setters[i].taken == [] then
        s.(setters := s.setters[..i] + s.setters[i + 1..])
      else s
  }

  function Run(s: Ice, labels: seq<Label>): Ice
    decreases |labels|
  {
    if labels == [] then s else Run(Step(s, labels[0]), labels[1..])
  }

  // ---------- conservation, for any number of setters ----------

  function Held(setters: seq<Setter>): multiset<Candidate> {
    if setters == [] then multiset{} else multiset(setters[0].taken) + Held(setters[1..])
  }

  lemma {:induction false} HeldSplits(a: seq<Setter>, b: seq<Setter>)
    ensures Held(a + b) == Held(a) + Held(b)
  {
    if a == [] {
      assert a + b == b;
    } else {
      assert (a + b)[1..] == a[1..] + b;
      HeldSplits(a[1..], b);
    }
  }

  function Others(setters: seq<Setter>, i: nat): seq<Setter>
    requires i < |setters|
  {
    setters[..i] + setters[i + 1..]
  }

  lemma HeldAround(before: seq<Setter>, at: Setter, after: seq<Setter>)
    ensures Held(before + ([at] + after)) == Held(before + after) + multiset(at.taken)
  {
    HeldSplits(before, [at] + after);
    HeldSplits(before, after);
    assert ([at] + after)[1..] == after;
  }

  lemma HeldAt(setters: seq<Setter>, i: nat, other: Setter)
    requires i < |setters|
    ensures Held(setters) == Held(Others(setters, i)) + multiset(setters[i].taken)
    ensures Held(setters[i := other]) == Held(Others(setters, i)) + multiset(other.taken)
  {
    hide Held;
    HeldAround(setters[..i], setters[i], setters[i + 1..]);
    HeldAround(setters[..i], other, setters[i + 1..]);
    assert setters == setters[..i] + ([setters[i]] + setters[i + 1..]);
    assert setters[i := other] == setters[..i] + ([other] + setters[i + 1..]);
  }

  ghost predicate BufferedConserved(s: Ice) {
    multiset(s.arrived) == multiset(s.buffer) + Held(s.setters) + multiset(s.flushed)
  }

  ghost predicate Conserved(s: Ice) {
    && BufferedConserved(s)
    && s.added == multiset(s.arrived) + s.transit + s.direct + s.refused
    && (s.remoteSet ==> s.buffer == [])
  }

  lemma BeginConserves(s: Ice)
    requires BufferedConserved(s)
    ensures BufferedConserved(Step(s, Begin))
  {
    HeldAround(s.setters, Setting(s.buffer), []);
    assert s.setters + [] == s.setters && [Setting(s.buffer)] + [] == [Setting(s.buffer)];
  }

  lemma RejectedConserves(s: Ice, i: nat)
    requires BufferedConserved(s)
    ensures BufferedConserved(Step(s, Rejected(i)))
  {
    if i < |s.setters| { HeldAt(s.setters, i, s.setters[i]); }
  }

  lemma AcceptedConserves(s: Ice, i: nat)
    requires BufferedConserved(s)
    ensures BufferedConserved(Step(s, Accepted(i)))
  {
    if i < |s.setters| { HeldAt(s.setters, i, Flushing(s.setters[i].taken)); }
  }

  lemma FlushOneConserves(s: Ice, i: nat)
    requires BufferedConserved(s)
    ensures BufferedConserved(Step(s, FlushOne(i)))
  {
    if i < |s.setters| && s.setters[i].taken != [] {
      var taken := s.setters[i].taken;
      assert taken == [taken[0]] + taken[1..];
      HeldAt(s.setters, i, Flushing(taken[1..]));
    }
  }

  lemma EndFlushConserves(s: Ice, i: nat)
    requires BufferedConserved(s)
    ensures BufferedConserved(Step(s, EndFlush(i)))
  {
    if i < |s.setters| { HeldAt(s.setters, i, s.setters[i]); }
  }

  lemma AddConserves(s: Ice, c: Candidate)
    requires Conserved(s)
    ensures Conserved(Step(s, Add(c)))
  {
  }

  lemma DeliverConserves(s: Ice, c: Candidate, hasPeer: bool)
    requires Conserved(s)
    ensures Conserved(Step(s, Deliver(c, hasPeer)))
  {
    if c in s.transit { assert s.transit == (s.transit - multiset{c}) + multiset{c}; }
  }

  lemma StepConserves(s: Ice, l: Label)
    requires Conserved(s)
    ensures Conserved(Step(s, l))
  {
    match l
    case Add(c) => AddConserves(s, c);
    case Deliver(c, hasPeer) => DeliverConserves(s, c, hasPeer);
    case Begin => BeginConserves(s);
    case Rejected(i) => RejectedConserves(s, i);
    case Accepted(i) => AcceptedConserves(s, i);
    case FlushOne(i) => FlushOneConserves(s, i);
    case EndFlush(i) => EndFlushConserves(s, i);
  }

  lemma {:induction false} RunConserves(s: Ice, labels: seq<Label>)
    requires Conserved(s)
    ensures Conserved(Run(s, labels))
    decreases |labels|
  {
    if labels == [] {
    } else {
      StepConserves(s, labels[0]);
      RunConserves(Step(s, labels[0]), labels[1..]);
    }
  }

  /** Every candidate added is in exactly one place: the buffer, a setter's hands, an adder's
      hands, the peer connection, or refused for want of one; and the buffer is empty whenever
      the flag is up. */
  lemma EveryRunConservesCandidates(labels: seq<Label>)
    ensures var s := Run(NEW_PEER, labels);
      && s.added == multiset(s.buffer) + Held(s.setters) + s.transit + (multiset(s.flushed) + s.direct) + s.refused
      && (s.remoteSet ==> s.buffer == [])
  {
    RunConserves(NEW_PEER, labels);
  }

  // ---------- order, exactly ----------

  /** What the setters hold, in the order in which they took it. */
  function TakenAll(setters: seq<Setter>): seq<Candidate> {
    if setters == [] then [] else setters[0].taken + TakenAll(setters[1..])
  }

  lemma {:induction false} TakenAllSplits(a: seq<Setter>, b: seq<Setter>)
    ensures TakenAll(a + b) == TakenAll(a) + TakenAll(b)
  {
    if a == [] {
      assert a + b == b;
    } else {
      assert (a + b)[1..] == a[1..] + b;
      TakenAllSplits(a[1..], b);
    }
  }

  lemma TakenAround(before: seq<Setter>, at: Setter, after: seq<Setter>)
    ensures TakenAll(before + ([at] + after)) == TakenAll(before) + (at.taken + TakenAll(after))
    ensures TakenAll(before + after) == TakenAll(before) + TakenAll(after)
  {
    TakenAllSplits(before, [at] + after);
    TakenAllSplits(before, after);
    assert ([at] + after)[1..] == after;
  }

  lemma TakenAt(setters: seq<Setter>, i: nat, other: Setter)
    requires i < |setters|
    ensures TakenAll(setters) == TakenAll(setters[..i]) + (setters[i].taken + TakenAll(setters[i + 1..]))
    ensures TakenAll(setters[i := other]) == TakenAll(setters[..i]) + (other.taken + TakenAll(setters[i + 1..]))
    ensures TakenAll(Others(setters, i)) == TakenAll(setters[..i]) + TakenAll(setters[i + 1..])
  {
    hide TakenAll;
    TakenAround(setters[..i], setters[i], setters[i + 1..]);
    TakenAround(setters[..i], other, setters[i + 1..]);
    assert setters == setters[..i] + ([setters[i]] + setters[i + 1..]);
    assert setters[i := other] == setters[..i] + ([other] + setters[i + 1..]);
  }

  /** Flushed, held in the order of taking, and buffered are together all that was ever buffered,
      in arrival order. */
  ghost predicate Ordered(s: Ice) { s.arrived == s.flushed + (TakenAll(s.setters) + s.buffer) }

  /** What a caller can see before the step: a rejected setter puts something back only if no later
      setter holds anything, and a setter flushes only if no earlier one does. */
  predicate KeepsOrder(s: Ice, l: Label) {
    match l
    case Rejected(i) =>
      i < |s.setters| && s.setters[i].Setting? ==> s.setters[i].taken == [] || TakenAll(s.setters[i + 1..]) == []
    case FlushOne(i) =>
      i < |s.setters| && s.setters[i].Flushing? && s.setters[i].taken != [] ==> TakenAll(s.setters[..i]) == []
    case _ => true
  }

  ghost predicate Distinct(cs: seq<Candidate>) { forall i, j | 0 <= i < j < |cs| :: cs[i] != cs[j] }

  lemma SwapIff(front: seq<Candidate>, a: seq<Candidate>, b: seq<Candidate>, back: seq<Candidate>)
    requires Distinct(front + (a + (b + back)))
    ensures front + (a + (b + back)) == front + (b + (a + back)) <==> a == [] || b == []
  {
    var (x, y) := (front + (a + (b + back)), front + (b + (a + back)));
    if a == [] || b == [] {
      assert x == y;
    } else {
      assert x[|front|] == a[0] && y[|front|] == b[0] && x[|front| + |a|] == b[0];
    }
  }

  lemma RejectedOrderIff(s: Ice, i: nat)
    requires Ordered(s) && Distinct(s.arrived)
    ensures Ordered(Step(s, Rejected(i))) <==> KeepsOrder(s, Rejected(i))
  {
    if i < |s.setters| && s.setters[i].Setting? {
      TakenAt(s.setters, i, s.setters[i]);
      var (a, t, b) := (TakenAll(s.setters[..i]), s.setters[i].taken, TakenAll(s.setters[i + 1..]));
      assert s.arrived == (s.flushed + a) + (t + (b + s.buffer));
      assert s.flushed + ((a + b) + (t + s.buffer)) == (s.flushed + a) + (b + (t + s.buffer));
      SwapIff(s.flushed + a, t, b, s.buffer);
    }
  }

  lemma FlushOrderIff(s: Ice, i: nat)
    requires Ordered(s) && Distinct(s.arrived)
    ensures Ordered(Step(s, FlushOne(i))) <==> KeepsOrder(s, FlushOne(i))
  {
    if i < |s.setters| && s.setters[i].Flushing? && s.setters[i].taken != [] {
      var (first, later) := ([s.setters[i].taken[0]], s.setters[i].taken[1..]);
      assert s.setters[i].taken == first + later;
      TakenAt(s.setters, i, Flushing(later));
      var (a, b) := (TakenAll(s.setters[..i]), TakenAll(s.setters[i + 1..]));
      var back := later + (b + s.buffer);
      assert s.arrived == s.flushed + (a + (first + back));
      assert (s.flushed + first) + ((a + (later + b)) + s.buffer) == s.flushed + (first + (a + back));
      SwapIff(s.flushed, a, first, back);
    }
  }

  lemma BeginKeepsOrder(s: Ice)
    requires Ordered(s)
    ensures Ordered(Step(s, Begin))
  {
    TakenAllSplits(s.setters, [Setting(s.buffer)]);
    assert TakenAll([Setting(s.buffer)]) == s.buffer + TakenAll([Setting(s.buffer)][1..]);
    assert (TakenAll(s.setters) + s.buffer) + [] == TakenAll(s.setters) + s.buffer;
  }

  lemma OthersKeepOrder(s: Ice, l: Label)
    requires Ordered(s) && !l.Rejected? && !l.FlushOne?
    ensures Ordered(Step(s, l))
  {
    match l
    case Add(c) =>
      var held := TakenAll(s.setters);
      assert (s.flushed + (held + s.buffer)) + [c] == s.flushed + (held + (s.buffer + [c]));
    case Deliver(_, _) =>
    case Begin => BeginKeepsOrder(s);
    case Accepted(i) => if i < |s.setters| { TakenAt(s.setters, i, Flushing(s.setters[i].taken)); }
    case EndFlush(i) =>
      if i < |s.setters| && s.setters[i].taken == [] { TakenAt(s.setters, i, s.setters[i]); }
  }

  /** A step keeps arrival order exactly when its guard holds. */
  lemma StepOrderIff(s: Ice, l: Label)
    requires Ordered(s) && Distinct(s.arrived)
    ensures Ordered(Step(s, l)) <==> KeepsOrder(s, l)
  {
    match l
    case Rejected(i) => RejectedOrderIff(s, i);
    case FlushOne(i) => FlushOrderIff(s, i);
    case _ => OthersKeepOrder(s, l);
  }

  /** Every state the run passes through, first and last included, is in order. */
  ghost predicate AlwaysOrdered(s: Ice, labels: seq<Label>)
    decreases |labels|
  {
    Ordered(s) && (labels == [] || AlwaysOrdered(Step(s, labels[0]), labels[1..]))
  }

  predicate OrderlyRun(s: Ice, labels: seq<Label>)
    decreases |labels|
  {
    labels == [] || (KeepsOrder(s, labels[0]) && OrderlyRun(Step(s, labels[0]), labels[1..]))
  }

  lemma {:induction false} ArrivedGrows(s: Ice, labels: seq<Label>)
    ensures s.arrived <= Run(s, labels).arrived
    decreases |labels|
  {
    if labels == [] {
    } else {
      ArrivedGrows(Step(s, labels[0]), labels[1..]);
    }
  }

  /** With candidates that are all different, a run keeps arrival order throughout if and only if
      every rejection and every hand-over on the way met its guard. */
  lemma {:induction false} OrderedThroughoutIff(s: Ice, labels: seq<Label>)
    requires Ordered(s) && Distinct(Run(s, labels).arrived)
    ensures AlwaysOrdered(s, labels) <==> OrderlyRun(s, labels)
    decreases |labels|
  {
    if labels == [] {
    } else {
      ArrivedGrows(s, labels);
      StepOrderIff(s, labels[0]);
      if KeepsOrder(s, labels[0]) { OrderedThroughoutIff(Step(s, labels[0]), labels[1..]); }
    }
  }

  // ---------- one setter at a time ----------

  /** Every setter begins when no other is under way. */
  predicate OneAtATime(s: Ice, labels: seq<Label>)
    decreases |labels|
  {
    labels != [] ==> (labels[0].Begin? ==> s.setters == []) && OneAtATime(Step(s, labels[0]), labels[1..])
  }

  lemma {:induction false} OneSetterIsOrderly(s: Ice, labels: seq<Label>)
    requires |s.setters| <= 1 && OneAtATime(s, labels)
    ensures OrderlyRun(s, labels)
    decreases |labels|
  {
    if labels == [] {
    } else {
      OneSetterIsOrderly(Step(s, labels[0]), labels[1..]);
    }
  }

  // The guards are enough even for repeated candidates.

  lemma OrderlyRejection(s: Ice, i: nat)
    requires Ordered(s) && KeepsOrder(s, Rejected(i))
    ensures Ordered(Step(s, Rejected(i)))
  {
    if i < |s.setters| && s.setters[i].Setting? {
      TakenAt(s.setters, i, s.setters[i]);
      var (a, t, b) := (TakenAll(s.setters[..i]), s.setters[i].taken, TakenAll(s.setters[i + 1..]));
      assert (a + (t + b)) + s.buffer == (a + b) + (t + s.buffer);
    }
  }

  lemma FirstMoves(front: seq<Candidate>, none: seq<Candidate>, first: seq<Candidate>, later: seq<Candidate>,
      b: seq<Candidate>, back: seq<Candidate>)
    requires none == []
    ensures front + ((none + ((first + later) + b)) + back) == (front + first) + ((none + (later + b)) + back)
  {
    assert none + ((first + later) + b) == first + (later + b) && none + (later + b) == later + b;
  }

  lemma OrderlyFlush(s: Ice, i: nat)
    requires Ordered(s) && KeepsOrder(s, FlushOne(i))
    ensures Ordered(Step(s, FlushOne(i)))
  {
    if i < |s.setters| && s.setters[i].Flushing? && s.setters[i].taken != [] {
      var (first, later) := ([s.setters[i].taken[0]], s.setters[i].taken[1..]);
      assert s.setters[i].taken == first + later;
      TakenAt(s.setters, i, Flushing(later));
      var (a, b) := (TakenAll(s.setters[..i]), TakenAll(s.setters[i + 1..]));
      FirstMoves(s.flushed, a, first, later, b, s.buffer);
    }
  }

  lemma OrderlyStepKeepsOrder(s: Ice, l: Label)
    requires Ordered(s) && KeepsOrder(s, l)
    ensures Ordered(Step(s, l))
  {
    hide Ordered; hide KeepsOrder; hide Step;
    match l
    case Rejected(i) => OrderlyRejection(s, i);
    case FlushOne(i) => OrderlyFlush(s, i);
    case _ => OthersKeepOrder(s, l);
  }

  lemma {:induction false} OrderlyRunsKeepOrder(s: Ice, labels: seq<Label>)
    requires Ordered(s) && OrderlyRun(s, labels)
    ensures Ordered(Run(s, labels))
    decreases |labels|
  {
    if labels == [] {
    } else {
      OrderlyStepKeepsOrder(s, labels[0]);
      OrderlyRunsKeepOrder(Step(s, labels[0]), labels[1..]);
    }
  }

  /** The guards hold of every run whose setters do not overlap, so its candidates reach the peer
      connection in arrival order, however often setting the description failed. */
  lemma OneSetterFlushesInOrder(labels: seq<Label>)
    requires OneAtATime(NEW_PEER, labels)
    ensures OrderlyRun(NEW_PEER, labels)
    ensures Run(NEW_PEER, labels).flushed <= Run(NEW_PEER, labels).arrived
  {
    OneSetterIsOrderly(NEW_PEER, labels);
    OrderlyRunsKeepOrder(NEW_PEER, labels);
  }

  /** Two setters overlap, the second fails and is tried again, both fail, and a last one succeeds. */
  function Overlap(a: Candidate, b: Candidate): seq<Label> {
    [Add(a), Begin, Begin, Rejected(1), Add(b), Begin, Rejected(0), Rejected(0),
     Begin, Accepted(0), FlushOne(0), FlushOne(0)]
  }

  /** A setter starts while another holds `a`, is rejected, and starts again after `b` came. */
  lemma SecondSetterTakesLater(s: Ice, a: Candidate, b: Candidate)
    requires s.setters == [] && s.buffer == [a] && s.arrived == [a] && !s.remoteSet
    ensures var t := Step(Step(Step(Step(Step(s, Begin), Begin), Rejected(1)), Add(b)), Begin);
      t == s.(setters := [Setting([a]), Setting([b])], buffer := [], arrived := [a, b], remoteSet := true,
          added := s.added + multiset{b})
  {
    var s1 := Step(s, Begin);
    assert s1.setters == [Setting([a])];
    var s2 := Step(s1, Begin);
    assert s2.setters == [Setting([a]), Setting([])];
    var s3 := Step(s2, Rejected(1));
    assert s3.setters == [Setting([a])] && s3.buffer == [];
    var s4 := Step(s3, Add(b));
    assert s4.buffer == [b] && s4.arrived == [a, b];
    var s5 := Step(s4, Begin);
    assert s5.setters == [Setting([a]), Setting([b])];
  }

  /** The first rejection breaks the order, and the second one seals it. */
  lemma BothRejected(s: Ice, a: Candidate, b: Candidate)
    requires s.setters == [Setting([a]), Setting([b])] && s.buffer == []
    ensures !KeepsOrder(s, Rejected(0))
    ensures Step(Step(s, Rejected(0)), Rejected(0)) == s.(setters := [], buffer := [b, a], remoteSet := false)
  {
    var s1 := Step(s, Rejected(0));
    assert s.setters[1..] == [Setting([b])] && TakenAll(s.setters[1..]) == [b] + TakenAll(s.setters[1..][1..]);
    assert s1.setters == [Setting([b])] && s1.buffer == [a];
    var s2 := Step(s1, Rejected(0));
    assert s2.setters == [] && s2.buffer == [b] + [a];
  }

  lemma FlushesBoth(s: Ice, a: Candidate, b: Candidate)
    requires s.setters == [] && s.buffer == [b, a] && s.flushed == []
    ensures var t := Step(Step(Step(Step(s, Begin), Accepted(0)), FlushOne(0)), FlushOne(0));
      t.flushed == [b, a] && t.arrived == s.arrived
  {
    var s1 := Step(s, Begin);
    assert s1.setters == [Setting([b, a])];
    var s2 := Step(s1, Accepted(0));
    assert s2.setters == [Flushing([b, a])];
    var s3 := Step(s2, FlushOne(0));
    assert s3.setters == [Flushing([a])] && s3.flushed == [b];
    var s4 := Step(s3, FlushOne(0));
    assert s4.flushed == [b, a];
  }

  lemma RunTwo(s: Ice, labels: seq<Label>)
    requires |labels| >= 2
    ensures Run(s, labels) == Run(Step(Step(s, labels[0]), labels[1]), labels[2..])
  {
    assert labels[1..][1..] == labels[2..];
  }

  lemma RunSix(s: Ice, labels: seq<Label>)
    requires |labels| >= 6
    ensures Run(s, labels) ==
      Run(Step(Step(Step(Step(Step(Step(s, labels[0]), labels[1]), labels[2]), labels[3]), labels[4]), labels[5]),
          labels[6..])
  {
    hide Run; hide Step;
    RunTwo(s, labels);
    var s2 := Step(Step(s, labels[0]), labels[1]);
    RunTwo(s2, labels[2..]);
    RunTwo(Step(Step(s2, labels[2]), labels[3]), labels[4..]);
    assert labels[2..][2..] == labels[4..] && labels[4..][2..] == labels[6..];
  }

  /** With setters that overlap, two failures put different candidates back in the wrong order,
      and that is how they reach the peer connection: `a` arrived first, `b` is handed over first. */
  lemma OverlappingSettersReorder(a: Candidate, b: Candidate)
    requires a != b
    ensures var s := Run(NEW_PEER, Overlap(a, b));
      s.arrived == [a, b] && s.flushed == [b, a] && !(s.flushed <= s.arrived)
    ensures !OneAtATime(NEW_PEER, Overlap(a, b))
  {
    var labels := Overlap(a, b);
    var s1 := Step(NEW_PEER, Add(a));
    assert s1.buffer == [a] && s1.arrived == [a];
    RunSix(NEW_PEER, labels);
    SecondSetterTakesLater(s1, a, b);
    var s6 := Step(Step(Step(Step(Step(s1, Begin), Begin), Rejected(1)), Add(b)), Begin);
    RunSix(s6, labels[6..]);
    BothRejected(s6, a, b);
    FlushesBoth(Step(Step(s6, Rejected(0)), Rejected(0)), a, b);
    assert [b, a][0] != [a, b][0];
    TwoBeginsOverlap(a, labels);
  }

  lemma TwoBeginsOverlap(a: Candidate, labels: seq<Label>)
    requires |labels| > 2 && labels[0] == Add(a) && labels[1] == Begin && labels[2] == Begin
    ensures !OneAtATime(NEW_PEER, labels)
  {
    var s1 := Step(NEW_PEER, Add(a));
    var s2 := Step(s1, Begin);
    assert |s2.setters| == 1;
    var rest := labels[1..][1..];
    assert rest[0] == Begin && !OneAtATime(s2, rest);
    assert !OneAtATime(s1, labels[1..]);
  }

  // ---------- one caller at a time: the fields and methods themselves ----------

  function Flushes(n: nat): seq<Label> {
    if n == 0 then [EndFlush(0)] else [FlushOne(0)] + Flushes(n - 1)
  }

  /** The steps of an undisturbed setter that finds `n` candidates. */
  function SetterSteps(n: nat, accepted: bool): seq<Label> {
    if accepted then [Begin, Accepted(0)] + Flushes(n) else [Begin, Rejected(0)]
  }

  lemma {:induction false} FlushesAll(s: Ice, taken: seq<Candidate>)
    requires s.setters == [Flushing(taken)]
    ensures Run(s, Flushes(|taken|)) == s.(setters := [], flushed := s.flushed + taken)
    decreases |taken|
  {
    var labels := Flushes(|taken|);
    if taken == [] {
      assert s.flushed + taken == s.flushed;
      assert Run(Step(s, EndFlush(0)), labels[1..]) == Step(s, EndFlush(0));
    } else {
      var t := Step(s, FlushOne(0));
      assert t.setters == [Flushing(taken[1..])];
      assert labels[1..] == Flushes(|taken| - 1);
      assert (s.flushed + [taken[0]]) + taken[1..] == s.flushed + taken;
      FlushesAll(t, taken[1..]);
    }
  }

  lemma SetterRuns(s: Ice, accepted: bool)
    requires s.setters == []
    ensures Run(s, SetterSteps(|s.buffer|, accepted)) ==
              if accepted then s.(remoteSet := true, buffer := [], flushed := s.flushed + s.buffer)
              else s.(remoteSet := false)
  {
    var labels := SetterSteps(|s.buffer|, accepted);
    RunTwo(s, labels);
    var t := Step(s, Begin);
    assert t.setters == [Setting(s.buffer)];
    if accepted {
      assert labels[2..] == Flushes(|s.buffer|) && Step(t, Accepted(0)).setters == [Flushing(s.buffer)];
      FlushesAll(Step(t, Accepted(0)), s.buffer);
    } else {
      assert s.buffer + [] == s.buffer;
    }
  }

  /** The manager's fields; `history` is the step system's state after the calls so far. */
  class Manager {
    var remoteSet: bool
    var pendingICE: seq<Candidate>
    var handedOver: seq<Candidate>
    ghost var history: Ice

    ghost predicate Valid()
      reads this
    {
      && history.remoteSet == remoteSet && history.buffer == pendingICE && history.setters == []
      && multiset(handedOver) == multiset(history.flushed) + history.direct
    }

    constructor ()
      ensures Valid() && history == NEW_PEER
    {
      remoteSet, pendingICE, handedOver := false, [], [];
      history := NEW_PEER;
    }

    /** `accepts` is the peer connection's verdict on a candidate handed to it. */
    method AddICECandidate(c: Candidate, hasPeer: bool, accepts: bool) returns (ok: bool)
      requires Valid()
      modifies this
      ensures Valid()
      ensures var added := Step(old(history), Add(c));
        history == if old(remoteSet) then Step(added, Deliver(c, hasPeer)) else added
      ensures ok == (!old(remoteSet) || (hasPeer && accepts))
      ensures handedOver == if old(remoteSet) && hasPeer then old(handedOver) + [c] else old(handedOver)
    {
      history := Step(history, Add(c));
      if !remoteSet {
        pendingICE := pendingICE + [c];
        return true;
      }
      history := Step(history, Deliver(c, hasPeer));
      if !hasPeer { return false; }
      handedOver := handedOver + [c];
      return accepts;
    }

    /** `accepted` is the peer connection's verdict on the description. */
    method SetRemoteDescription(hasPeer: bool, accepted: bool) returns (ok: bool)
      requires Valid()
      modifies this
      ensures Valid() && ok == (hasPeer && accepted)
      ensures history == if hasPeer then Run(old(history), SetterSteps(|old(pendingICE)|, accepted)) else old(history)
      ensures handedOver == if ok then old(handedOver) + old(pendingICE) else old(handedOver)
    {
      if !hasPeer { return false; }
      SetterRuns(history, accepted);
      remoteSet := true;
      var pending := pendingICE;
      pendingICE := [];
      if !accepted {
        remoteSet := false;
        pendingICE := pending + pendingICE;
        history := Run(history, SetterSteps(|pending|, false));
        return false;
      }
      var i := 0;
      while i < |pending|
        invariant 0 <= i <= |pending| && handedOver == old(handedOver) + pending[..i]
        invariant remoteSet && pendingICE == [] && history == old(history)
      {
        handedOver := handedOver + [pending[i]];
        i := i + 1;
      }
      assert pending[..i] == pending;
      history := Run(history, SetterSteps(|pending|, true));
      return true;
    }
  }
}
