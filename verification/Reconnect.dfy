/** The reconnect loop: how often it dials, how long it waits, and what a registered session
    resets.  The world (cancellation, read results, dial results) is an input; the log says what
    the loop did. */
module Reconnect {
  const SECOND := 1_000_000_000
  const MAX_DELAY := 30 * SECOND

  datatype Config = Config(autoReconnect: bool, maxRetries: int, retryDelay: nat)

  /** What one turn of the loop meets; `registered` says whether the session, if there was one,
      saw a registration. */
  datatype Turn = Turn(cancelled: bool, registered: bool, cancelledAfterRead: bool, cancelledWaiting: bool,
      connected: bool)

  /** `Dial` carries the base delay that was waited for, before the random factor. */
  datatype Event = Session(registered: bool) | Dial(delay: nat, connected: bool) | GaveUp

  function DialsSince(log: seq<Event>): nat {
    if log == [] then 0
    else
      var before := DialsSince(log[..|log| - 1]);
      match log[|log| - 1]
      case Session(registered) => if registered then 0 else before
      case Dial(_, _) => before + 1
      case GaveUp => before
  }

  function Min(a: nat, b: nat): nat { if a < b then a else b }

  /** The base delay before the dial that follows `k` dials without a registration. */
  function BaseDelay(retryDelay: nat, k: nat): nat {
    if k == 0 then retryDelay else Min(2 * BaseDelay(retryDelay, k - 1), MAX_DELAY)
  }

  function Pow2(k: nat): nat { if k == 0 then 1 else 2 * Pow2(k - 1) }

  /** The delay doubles from the configured one, and 30 s is its ceiling unless the configured one
      is longer, which then is waited for only once. */
  lemma {:induction false} BaseDelayDoubles(retryDelay: nat, k: nat)
    ensures k > 0 ==> BaseDelay(retryDelay, k) == Min(Pow2(k) * retryDelay, MAX_DELAY)
    ensures BaseDelay(retryDelay, k) <= retryDelay || BaseDelay(retryDelay, k) <= MAX_DELAY
  {
    if k == 0 {
    } else {
      BaseDelayDoubles(retryDelay, k - 1);
      assert Pow2(k) * retryDelay == 2 * (Pow2(k - 1) * retryDelay);
    }
  }

  predicate Allowed(cfg: Config, before: seq<Event>, e: Event) {
    match e
    case Session(_) => before == [] || (before[|before| - 1].Dial? && before[|before| - 1].connected)
    case Dial(delay, _) =>
      && cfg.autoReconnect && (before == [] || !before[|before| - 1].GaveUp?)
      && (cfg.maxRetries > 0 ==> DialsSince(before) < cfg.maxRetries)
      && delay == BaseDelay(cfg.retryDelay, DialsSince(before))
    case GaveUp => cfg.autoReconnect && cfg.maxRetries > 0 && DialsSince(before) == cfg.maxRetries
  }

  /** Every dial comes within the retry limit, after the right delay, and only with automatic
      reconnection; giving up comes exactly at the limit and is the end; a session needs a
      connection. */
  ghost predicate Disciplined(cfg: Config, log: seq<Event>) {
    log != [] ==> Disciplined(cfg, log[..|log| - 1]) && Allowed(cfg, log[..|log| - 1], log[|log| - 1])
  }

  lemma Extend(cfg: Config, log: seq<Event>, e: Event)
    requires Disciplined(cfg, log) && Allowed(cfg, log, e)
    ensures Disciplined(cfg, log + [e])
    ensures DialsSince(log + [e]) == (match e
      case Session(registered) => if registered then 0 else DialsSince(log)
      case Dial(_, _) => DialsSince(log) + 1
      case GaveUp => DialsSince(log))
  {
    assert (log + [e])[..|log + [e]| - 1] == log;
  }

  /** What the loop does in a given world after `k` dials without a registration; `lost` says that
      there is no connection to read from. */
  function Trace(cfg: Config, lost: bool, k: nat, world: seq<Turn>): seq<Event>
    decreases |world|
  {
    if world == [] || world[0].cancelled then []
    else
      var session := if lost then [] else [Session(world[0].registered)];
      session + AfterSession(cfg, if !lost && world[0].registered then 0 else k, world)
  }

  function AfterSession(cfg: Config, k: nat, world: seq<Turn>): seq<Event>
    requires world != []
    decreases |world|, 0
  {
    if world[0].cancelledAfterRead || !cfg.autoReconnect then []
    else if cfg.maxRetries > 0 && k >= cfg.maxRetries then [GaveUp]
    else if world[0].cancelledWaiting then []
    else [Dial(BaseDelay(cfg.retryDelay, k), world[0].connected)] + Trace(cfg, !world[0].connected, k + 1, world[1..])
  }

  lemma Glue(a: seq<Event>, b: seq<Event>, c: seq<Event>)
    ensures a + (b + c) == (a + b) + c && a + [] == a && [] + a == a
  {
  }

  /** `runConnections`: `connected` says whether the first dial, made before the loop, succeeded. */
  method RunConnections(cfg: Config, connected: bool, world: seq<Turn>) returns (log: seq<Event>)
    ensures log == Trace(cfg, !connected, 0, world)
  {
    var err := !connected;
    var attempts := 0;
    var delay := cfg.retryDelay;
    log := [];
    var i := 0;
    while i < |world| && !world[i].cancelled
      invariant 0 <= i <= |world| && attempts >= 0 && delay == BaseDelay(cfg.retryDelay, attempts)
      invariant log + Trace(cfg, err, attempts, world[i..]) == Trace(cfg, !connected, 0, world)
    {
      var turn := world[i];
      ghost var before, rest := log, world[i..];
      i := i + 1;
      if !err {
        if turn.registered {
          attempts := 0;
          delay := cfg.retryDelay;
        }
        err := true;
        log := log + [Session(turn.registered)];
      }
      ghost var after := AfterSession(cfg, attempts, rest);
      Glue(before, [Session(turn.registered)], after);
      Glue(before, [], after);
      Glue(after, [], []);
      Glue(log, [], []);
      if turn.cancelledAfterRead || !cfg.autoReconnect { return; }
      if cfg.maxRetries > 0 && attempts >= cfg.maxRetries {
        log := log + [GaveUp];
        return;
      }
      if turn.cancelledWaiting { return; }
      Glue(log, [Dial(delay, turn.connected)], Trace(cfg, !turn.connected, attempts + 1, rest[1..]));
      attempts := attempts + 1;
      log := log + [Dial(delay, turn.connected)];
      err := !turn.connected;
      delay := 2 * delay;
      if delay > MAX_DELAY { delay := MAX_DELAY; }
    }
    Glue(log, [], []);
  }

  /** Whatever the world, the loop is disciplined from its first event to its last. */
  lemma {:induction false} TraceIsDisciplined(cfg: Config, lost: bool, k: nat, world: seq<Turn>, log: seq<Event>)
    requires Disciplined(cfg, log) && DialsSince(log) == k && (cfg.maxRetries > 0 ==> k <= cfg.maxRetries)
    requires log != [] ==> log[|log| - 1].Dial? && log[|log| - 1].connected == !lost
    ensures Disciplined(cfg, log + Trace(cfg, lost, k, world))
    decreases |world|
  {
    hide Disciplined; hide DialsSince; hide BaseDelay;
    if world == [] || world[0].cancelled {
      Glue(log, [], []);
    } else {
      var turn := world[0];
      var session := if lost then [] else [Session(turn.registered)];
      var k' := if !lost && turn.registered then 0 else k;
      if !lost { Extend(cfg, log, Session(turn.registered)); }
      Glue(log, session, AfterSession(cfg, k', world));
      AfterSessionIsDisciplined(cfg, k', world, log + session);
    }
  }

  lemma {:induction false} AfterSessionIsDisciplined(cfg: Config, k: nat, world: seq<Turn>, log: seq<Event>)
    requires world != [] && Disciplined(cfg, log) && DialsSince(log) == k
    requires cfg.maxRetries > 0 ==> k <= cfg.maxRetries
    requires log != [] ==> !log[|log| - 1].GaveUp?
    ensures Disciplined(cfg, log + AfterSession(cfg, k, world))
    decreases |world|, 0
  {
    hide Disciplined; hide DialsSince; hide BaseDelay;
    Glue(log, [], []);
    if !world[0].cancelledAfterRead && cfg.autoReconnect {
      if cfg.maxRetries > 0 && k >= cfg.maxRetries {
        Extend(cfg, log, GaveUp);
      } else if !world[0].cancelledWaiting {
        var dial := Dial(BaseDelay(cfg.retryDelay, k), world[0].connected);
        Extend(cfg, log, dial);
        TraceIsDisciplined(cfg, !world[0].connected, k + 1, world[1..], log + [dial]);
        Glue(log, [dial], Trace(cfg, !world[0].connected, k + 1, world[1..]));
      }
    }
  }

  function Dials(log: seq<Event>): nat {
    if log == [] then 0 else Dials(log[..|log| - 1]) + if log[|log| - 1].Dial? then 1 else 0
  }

  function Registrations(log: seq<Event>): nat {
    if log == [] then 0 else Registrations(log[..|log| - 1]) + if log[|log| - 1] == Session(true) then 1 else 0
  }

  /** With a limit, the loop dials at most that often between two registered sessions, hence at
      most that often per registration in all; and it never waits longer than the configured
      delay or 30 s. */
  lemma {:induction false} DialsAreLimited(cfg: Config, log: seq<Event>)
    requires Disciplined(cfg, log)
    ensures cfg.maxRetries > 0 ==> DialsSince(log) <= cfg.maxRetries
    ensures cfg.maxRetries > 0 ==> Dials(log) <= cfg.maxRetries * Registrations(log) + DialsSince(log)
    ensures forall i | 0 <= i < |log| && log[i].Dial? :: log[i].delay <= cfg.retryDelay || log[i].delay <= MAX_DELAY
    decreases |log|
  {
    if log == [] {
    } else {
      var before := log[..|log| - 1];
      DialsAreLimited(cfg, before);
      BaseDelayDoubles(cfg.retryDelay, DialsSince(before));
      assert forall i | 0 <= i < |before| :: before[i] == log[i];
      assert cfg.maxRetries * (Registrations(before) + 1) == cfg.maxRetries * Registrations(before) + cfg.maxRetries;
    }
  }

  lemma FromTheStart(cfg: Config, connected: bool, world: seq<Turn>, none: seq<Event>)
    requires |none| == 0
    ensures Disciplined(cfg, none + Trace(cfg, !connected, 0, world))
  {
    TraceIsDisciplined(cfg, !connected, 0, world, none);
  }

  lemma TotalDials(cfg: Config, log: seq<Event>)
    requires Disciplined(cfg, log) && cfg.maxRetries > 0
    ensures Dials(log) <= cfg.maxRetries * (Registrations(log) + 1)
  {
    DialsAreLimited(cfg, log);
    assert cfg.maxRetries * (Registrations(log) + 1) == cfg.maxRetries * Registrations(log) + cfg.maxRetries;
  }

  /** The limits, of the loop itself. */
  lemma LoopIsLimited(cfg: Config, connected: bool, world: seq<Turn>)
    ensures var log := Trace(cfg, !connected, 0, world);
      && Disciplined(cfg, log)
      && (cfg.maxRetries > 0 ==> Dials(log) <= cfg.maxRetries * (Registrations(log) + 1))
      && (forall i | 0 <= i < |log| && log[i].Dial? :: log[i].delay <= cfg.retryDelay || log[i].delay <= MAX_DELAY)
  {
    var log := Trace(cfg, !connected, 0, world);
    var none := log[..0];
    FromTheStart(cfg, connected, world, none);
    assert none + log == log;
    DialsAreLimited(cfg, log);
    if cfg.maxRetries > 0 { TotalDials(cfg, log); }
  }

  // ---------- the loop goes on ----------

  lemma {:induction false} DialsSplit(a: seq<Event>, b: seq<Event>)
    ensures Dials(a + b) == Dials(a) + Dials(b)
    decreases |b|
  {
    if b == [] {
      assert a + b == a;
    } else {
      var front := b[..|b| - 1];
      assert (a + b)[..|a + b| - 1] == a + front;
      DialsSplit(a, front);
    }
  }

  lemma DialsOfOne(e: Event, log: seq<Event>)
    ensures Dials([e] + log) == (if e.Dial? then 1 else 0) + Dials(log)
  {
    assert [e][..0] == [];
    DialsSplit([e], log);
  }

  /** The client is stopped in this turn. */
  predicate Stops(t: Turn) { t.cancelled || t.cancelledAfterRead || t.cancelledWaiting }

  function TurnsBeforeStop(world: seq<Turn>): nat {
    if world == [] || Stops(world[0]) then 0 else 1 + TurnsBeforeStop(world[1..])
  }

  /** `log` ends with giving up. */
  predicate GaveUpIn(log: seq<Event>) { log != [] && log[|log| - 1].GaveUp? }

  lemma GaveUpLater(a: seq<Event>, b: seq<Event>)
    requires !GaveUpIn(a)
    ensures GaveUpIn(a + b) <==> GaveUpIn(b)
  {
    if b != [] {
      assert (a + b)[|a + b| - 1] == b[|b| - 1];
    } else {
      assert a + b == a;
    }
  }

  /** With automatic reconnection the loop dials once in every turn until the client is stopped, and ends
      earlier only by giving up, which it does only with a limit. */
  lemma {:induction false} LoopGoesOn(cfg: Config, lost: bool, k: nat, world: seq<Turn>)
    requires cfg.autoReconnect
    ensures var log := Trace(cfg, lost, k, world);
      if GaveUpIn(log) then cfg.maxRetries > 0 && Dials(log) <= TurnsBeforeStop(world)
      else Dials(log) == TurnsBeforeStop(world)
    decreases |world|
  {
    if world == [] || world[0].cancelled {
    } else {
      hide Dials; hide BaseDelay; hide GaveUpIn;
      var k' := if !lost && world[0].registered then 0 else k;
      AfterSessionGoesOn(cfg, k', world);
      var after := AfterSession(cfg, k', world);
      if lost {
        Glue(after, [], []);
      } else {
        DialsOfOne(Session(world[0].registered), after);
        SessionIsNoEnd(world[0].registered);
        GaveUpLater([Session(world[0].registered)], after);
      }
    }
  }

  lemma SessionIsNoEnd(registered: bool)
    ensures !GaveUpIn([Session(registered)])
  {
  }

  lemma {:induction false} AfterSessionGoesOn(cfg: Config, k: nat, world: seq<Turn>)
    requires cfg.autoReconnect && world != [] && !world[0].cancelled
    ensures var log := AfterSession(cfg, k, world);
      if GaveUpIn(log) then cfg.maxRetries > 0 && Dials(log) <= TurnsBeforeStop(world)
      else Dials(log) == TurnsBeforeStop(world)
    decreases |world|, 0
  {
    var t := world[0];
    if t.cancelledAfterRead {
    } else if cfg.maxRetries > 0 && k >= cfg.maxRetries {
      assert [GaveUp][..0] == [];
    } else if t.cancelledWaiting {
    } else {
      var dial := Dial(BaseDelay(cfg.retryDelay, k), t.connected);
      var later := Trace(cfg, !t.connected, k + 1, world[1..]);
      LoopGoesOn(cfg, !t.connected, k + 1, world[1..]);
      DialsOfOne(dial, later);
      GaveUpLater([dial], later);
    }
  }

  /** Without a limit it goes on for as long as the world does, unless it is stopped. */
  lemma UnlimitedLoopNeverEnds(cfg: Config, connected: bool, world: seq<Turn>)
    requires cfg.autoReconnect && cfg.maxRetries <= 0 && forall i | 0 <= i < |world| :: !Stops(world[i])
    ensures Dials(Trace(cfg, !connected, 0, world)) == |world|
  {
    LoopGoesOn(cfg, !connected, 0, world);
    NoStops(world);
  }

  lemma {:induction false} NoStops(world: seq<Turn>)
    requires forall i | 0 <= i < |world| :: !Stops(world[i])
    ensures TurnsBeforeStop(world) == |world|
  {
    if world == [] {
    } else {
      NoStops(world[1..]);
    }
  }

  /** With a limit it gives up only when all dials that the limit allows since the last registration have
      been made. */
  lemma GivesUpAtLimitOnly(cfg: Config, connected: bool, world: seq<Turn>)
    ensures var log := Trace(cfg, !connected, 0, world);
      GaveUpIn(log) ==>
        cfg.autoReconnect && cfg.maxRetries > 0 && DialsSince(log[..|log| - 1]) == cfg.maxRetries
  {
    LoopIsLimited(cfg, connected, world);
  }
}
