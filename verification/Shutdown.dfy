/** `Start`, `launch` and concurrent `Stop` calls.  A counted task is a goroutine started by
    `launch`, or a `Start` call under way; `lifeMu` makes the check of `stopping` and the addition
    to the wait group one step. */
module Shutdown {
  type Task = int
  type Caller = int

  /** The one caller inside `stopOnce`: not yet there, draining, or done and `stopped` closed. */
  datatype Stopping = NotCalled | Draining(caller: Caller) | Closed

  /** `begun` is history: all counted tasks there ever were. */
  datatype Life = Life(
    stopping: bool,
    started: bool,
    wg: int,
    running: set<Task>,
    begun: set<Task>,
    phase: Stopping,
    inStop: set<Caller>,
    returned: set<Caller>)

  const NEW_CLIENT := Life(false, false, 0, {}, {}, NotCalled, {}, {})

  datatype Label =
    | Start(t: Task) | Launch(t: Task) | Finish(t: Task)
    | CallStop(c: Caller) | EnterOnce(c: Caller) | WaitReturns | StopReturns(c: Caller)

  function Count(s: Life, t: Task): Life { s.(wg := s.wg + 1, running := s.running + {t}, begun := s.begun + {t}) }

  function Step(s: Life, l: Label): Life {
    match l
    case Start(t) => if s.started || s.stopping || t in s.begun then s else Count(s.(started := true), t)
    case Launch(t) => if s.stopping || t in s.begun then s else Count(s, t)
    case Finish(t) => if t !in s.running then s else s.(wg := s.wg - 1, running := s.running - {t})
    case CallStop(c) => s.(inStop := s.inStop + {c})
    case EnterOnce(c) =>
      // Only the first caller runs the body; the others wait for it.
      if c !in s.inStop || !s.phase.NotCalled? then s else s.(stopping := true, phase := Draining(c))
    case WaitReturns => if s.phase.Draining? && s.wg == 0 then s.(phase := Closed) else s
    case StopReturns(c) =>
      if c in s.inStop && s.phase.Closed? then s.(inStop := s.inStop - {c}, returned := s.returned + {c}) else s
  }

  function Run(s: Life, labels: seq<Label>): Life
    decreases |labels|
  {
    if labels == [] then s else Run(Step(s, labels[0]), labels[1..])
  }

  ghost predicate Inv(s: Life) {
    && s.wg == |s.running| && s.running <= s.begun
    && (!s.phase.NotCalled? ==> s.stopping)
    && (s.phase.Closed? ==> s.running == {})
    && (s.returned != {} ==> s.phase.Closed?)
  }

  lemma StepKeepsInv(s: Life, l: Label)
    requires Inv(s)
    ensures Inv(Step(s, l))
  {
    match l
    case Finish(t) => if t in s.running { assert s.running == (s.running - {t}) + {t}; }
    case Start(t) => if t !in s.begun { assert |s.running + {t}| == |s.running| + 1; }
    case Launch(t) => if t !in s.begun { assert |s.running + {t}| == |s.running| + 1; }
    case _ =>
  }

  lemma {:induction false} RunKeepsInv(s: Life, labels: seq<Label>)
    requires Inv(s)
    ensures Inv(Run(s, labels))
    decreases |labels|
  {
    if labels == [] {
    } else {
      StepKeepsInv(s, labels[0]);
      RunKeepsInv(Step(s, labels[0]), labels[1..]);
    }
  }

  /** Once stopping, the counted tasks only become fewer, and none begins. */
  lemma {:induction false} NothingBeginsWhileStopping(s: Life, labels: seq<Label>)
    requires s.stopping
    ensures var t := Run(s, labels); t.stopping && t.begun == s.begun && t.running <= s.running
    decreases |labels|
  {
    if labels == [] {
    } else {
      NothingBeginsWhileStopping(Step(s, labels[0]), labels[1..]);
    }
  }

  lemma {:induction false} ReturnedStays(s: Life, labels: seq<Label>)
    ensures s.returned <= Run(s, labels).returned
    decreases |labels|
  {
    if labels == [] {
    } else {
      ReturnedStays(Step(s, labels[0]), labels[1..]);
    }
  }

  /** The wait group never goes below zero; and when any `Stop` call has returned, whoever made it,
      no counted task runs, and none ever will: none begins in any continuation. */
  lemma StopIsFinal(labels: seq<Label>, more: seq<Label>)
    ensures var s := Run(NEW_CLIENT, labels);
      && s.wg >= 0
      && (s.returned != {} ==> s.running == {} && var t := Run(s, more);
            t.running == {} && t.begun == s.begun && t.wg == 0)
  {
    RunKeepsInv(NEW_CLIENT, labels);
    var s := Run(NEW_CLIENT, labels);
    RunKeepsInv(s, more);
    if s.returned != {} { NothingBeginsWhileStopping(s, more); }
  }

  /** A new task begins exactly if nobody is stopping; `Start` besides only once. */
  lemma TaskBeginsIff(s: Life, t: Task)
    requires Inv(s) && t !in s.begun
    ensures t in Step(s, Launch(t)).running <==> !s.stopping
    ensures t in Step(s, Start(t)).running <==> !s.stopping && !s.started
  {
  }

  lemma TaskEnds(s: Life, t: Task)
    requires Inv(s) && t in s.running
    ensures var s' := Step(s, Finish(t)); s'.running == s.running - {t} && s'.wg == s.wg - 1 && s'.begun == s.begun
  {
  }

  /** When no counted task is left, a first call of `Stop` returns. */
  lemma StopReturnsWhenIdle(s: Life, c: Caller)
    requires Inv(s) && s.running == {} && s.phase.NotCalled?
    ensures var t := Run(s, [CallStop(c), EnterOnce(c), WaitReturns, StopReturns(c)]);
      c in t.returned && t.stopping && t.phase.Closed?
  {
    var labels := [CallStop(c), EnterOnce(c), WaitReturns, StopReturns(c)];
    var s1 := Step(s, labels[0]);
    var s2 := Step(s1, labels[1]);
    var s3 := Step(s2, labels[2]);
    assert s3.phase.Closed? && c in s3.inStop;
    assert labels[1..][1..] == labels[2..] && labels[2..][1..] == labels[3..] && labels[3..][1..] == [];
    assert Run(s, labels) == Run(s1, labels[1..]);
    assert Run(s1, labels[1..]) == Run(s2, labels[2..]);
    assert Run(s2, labels[2..]) == Run(s3, labels[3..]);
    assert Run(s3, labels[3..]) == Step(s3, labels[3]);
  }
}
