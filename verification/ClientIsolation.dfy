/** Generation isolation: what every run of the control-connection system keeps, for every
    interleaving of connecting, failing, creating, finishing, sending and stopping. */
module ClientIsolation {
  import opened Wrappers
  import opened ForwardingTable
  import opened ControlConnection

  predicate Live(shown: Shown) { shown.Connected? || shown.Registered? }

  predicate HasGen(d: Driver) { d.Reading? || d.Handling? || d.Acked? || d.Ended? || d.Failed? }

  /** The driver and the installed connection agree on the generation. */
  ghost predicate DriverOk(c: Client) {
    && (HasGen(c.driver) ==> c.driver.g in c.used && (c.conn.Some? ==> c.conn.value == c.driver.g))
    && (c.driver.Down? || c.driver.Dialing? || c.driver.Failed? || c.driver.Publishing? ==> c.conn.None?)
    && (c.driver.Failed? <==> c.failing.Some? && c.failing.value.driver)
  }

  ghost predicate ConnectionOk(c: Client) {
    && c.writer == c.conn
    && (c.conn.Some? ==> c.conn.value in c.used && c.failing.None?)
    && (c.externalPort != 0 ==> c.conn.Some? && c.portOf == c.conn)
  }

  ghost predicate ShownOk(c: Client) {
    && (Live(c.shown) && c.conn.None? ==> c.publishers > 0 || c.failing.Some? || c.driver.Publishing?)
    && (c.conn.Some? && !c.cancelled && !c.driver.Installed? ==> Live(c.shown))
  }

  /** `g` may still own local connections: it is current, or its failure has yet to sweep them. */
  predicate Owns(c: Client, g: Gen) {
    c.conn == Some(g) || (c.failing.Some? && c.failing.value.Sweeping? && c.failing.value.g == g)
  }

  ghost predicate EntryOk(c: Client, id: Id, ref: EntryRef) {
    && ref in c.entries && c.entries[ref].id == id && Owns(c, c.entries[ref].control)
    && (id in c.table.closed ==> ref in c.finishing)
    && (ref in c.claimed ==> ref in c.finishing)
  }

  ghost predicate EntriesOk(c: Client) {
    && (forall id | id in c.table.entries :: EntryOk(c, id, c.table.entries[id]))
    && (c.creating.Some? ==> Owns(c, c.creating.value.control))
    && c.finishing <= c.claimed && (forall ref | ref in c.claimed :: ref in c.entries)
  }

  ghost predicate SendOk(c: Client, s: Sending) {
    && s.writer == s.origin
    && (s.source.Some? ==> s.source.value in c.entries && c.entries[s.source.value].control == s.writer)
  }

  ghost predicate SendsOk(c: Client) {
    && (c.sending.Some? ==> SendOk(c, c.sending.value))
    && (forall s | s in c.wire :: SendOk(c, s))
  }

  ghost predicate Inv(c: Client, limit: nat) {
    ConnectionOk(c) && DriverOk(c) && ShownOk(c) && TableOk(c.table, limit) && EntriesOk(c) && SendsOk(c)
  }

  lemma DriverKeepsConnection(c: Client, l: Label)
    requires ConnectionOk(c) && DriverOk(c)
    ensures ConnectionOk(DriverStep(c, l)) && DriverOk(DriverStep(c, l))
  {
  }

  lemma DriverKeepsShown(c: Client, l: Label)
    requires ConnectionOk(c) && DriverOk(c) && ShownOk(c)
    ensures ShownOk(DriverStep(c, l))
  {
  }

  /** The driver leaves the local connections alone, and their owners keep owning them. */
  lemma DriverKeepsOwners(c: Client, l: Label, g: Gen)
    requires ConnectionOk(c) && DriverOk(c) && Owns(c, g)
    ensures Owns(DriverStep(c, l), g)
  {
  }

  lemma DriverKeepsLocals(c: Client, l: Label)
    ensures var d := DriverStep(c, l); d.table == c.table && d.entries == c.entries && d.creating == c.creating
  {
  }

  lemma DriverKeepsSends(c: Client, l: Label)
    ensures var d := DriverStep(c, l);
      d.finishing == c.finishing && d.claimed == c.claimed && d.sending == c.sending && d.wire == c.wire
  {
  }

  lemma DriverKeeps(c: Client, limit: nat, l: Label)
    requires Inv(c, limit)
    ensures Inv(DriverStep(c, l), limit)
  {
    DriverKeepsConnection(c, l);
    DriverKeepsShown(c, l);
    DriverKeepsLocals(c, l);
    DriverKeepsSends(c, l);
    forall g | Owns(c, g) ensures Owns(DriverStep(c, l), g) { DriverKeepsOwners(c, l, g); }
  }

  lemma FailKeepsConnection(c: Client, l: Label)
    requires ConnectionOk(c) && DriverOk(c) && ShownOk(c)
    ensures var d := FailStep(c, l); ConnectionOk(d) && DriverOk(d) && ShownOk(d)
  {
  }

  lemma FailKeepsEntries(c: Client, l: Label)
    requires ConnectionOk(c) && EntriesOk(c)
    ensures EntriesOk(FailStep(c, l))
  {
  }

  lemma FailKeepsTable(c: Client, limit: nat, l: Label)
    requires TableOk(c.table, limit)
    ensures var d := FailStep(c, l);
      TableOk(d.table, limit) && d.entries == c.entries && d.sending == c.sending && d.wire == c.wire
  {
  }

  lemma FailKeeps(c: Client, limit: nat, l: Label)
    requires Inv(c, limit)
    ensures Inv(FailStep(c, l), limit)
  {
    FailKeepsConnection(c, l);
    FailKeepsEntries(c, l);
    FailKeepsTable(c, limit, l);
  }

  lemma CreateKeepsEntries(c: Client, limit: nat, ref: EntryRef, launched: bool)
    requires EntriesOk(c)
    ensures EntriesOk(LocalStep(limit, c, Create(ref, launched)))
  {
  }

  lemma CloseRemoteKeepsEntries(c: Client, limit: nat, id: Id)
    requires EntriesOk(c)
    ensures EntriesOk(LocalStep(limit, c, CloseRemote(id)))
  {
  }

  lemma FinishKeepsEntries(c: Client, limit: nat, ref: EntryRef)
    requires EntriesOk(c)
    ensures EntriesOk(LocalStep(limit, c, FinishEntry(ref)))
  {
  }

  lemma LocalKeepsEntries(c: Client, limit: nat, l: Label)
    requires EntriesOk(c)
    ensures EntriesOk(LocalStep(limit, c, l))
  {
    match l
    case Create(ref, launched) => CreateKeepsEntries(c, limit, ref, launched);
    case CloseRemote(id) => CloseRemoteKeepsEntries(c, limit, id);
    case FinishEntry(ref) => FinishKeepsEntries(c, limit, ref);
    case _ =>
  }

  lemma LocalKeepsTable(c: Client, limit: nat, l: Label)
    requires TableOk(c.table, limit)
    ensures TableOk(LocalStep(limit, c, l).table, limit)
  {
    match l
    case Create(ref, launched) =>
      if c.creating.Some? { CriticalSectionsKeepTable(c.table, c.creating.value.id, ref, limit, launched); }
    case CloseRemote(id) => CriticalSectionsKeepTable(c.table, id, 0, limit, true);
    case FinishEntry(ref) =>
      if ref in c.entries { CriticalSectionsKeepTable(c.table, c.entries[ref].id, ref, limit, true); }
    case _ =>
  }

  lemma LocalKeepsSends(c: Client, limit: nat, l: Label)
    ensures var d := LocalStep(limit, c, l);
      && d.conn == c.conn && d.writer == c.writer && d.externalPort == c.externalPort && d.portOf == c.portOf
      && d.shown == c.shown && d.cancelled == c.cancelled && d.failing == c.failing && d.publishers == c.publishers
      && d.driver == c.driver && d.used == c.used && d.sending == c.sending && d.wire == c.wire
      && (forall ref | ref in c.entries :: ref in d.entries && d.entries[ref] == c.entries[ref])
  {
  }

  lemma SendStays(c: Client, d: Client, sent: Sending)
    requires SendOk(c, sent)
    requires forall ref | ref in c.entries :: ref in d.entries && d.entries[ref] == c.entries[ref]
    ensures SendOk(d, sent)
  {
    if sent.source.Some? {
      var ref := sent.source.value;
      assert ref in d.entries && d.entries[ref] == c.entries[ref];
    }
  }

  lemma SendsStay(c: Client, d: Client)
    requires SendsOk(c) && d.sending == c.sending && d.wire == c.wire
    requires forall ref | ref in c.entries :: ref in d.entries && d.entries[ref] == c.entries[ref]
    ensures SendsOk(d)
  {
    forall sent | sent in d.wire
      ensures SendOk(d, sent)
    {
      SendStays(c, d, sent);
    }
    if d.sending.Some? { SendStays(c, d, d.sending.value); }
  }

  lemma LocalKeeps(c: Client, limit: nat, l: Label)
    requires Inv(c, limit)
    ensures Inv(LocalStep(limit, c, l), limit)
  {
    hide LocalStep;
    LocalKeepsTable(c, limit, l);
    LocalKeepsSends(c, limit, l);
    LocalKeepsEntries(c, limit, l);
    var d := LocalStep(limit, c, l);
    SendsStay(c, d);
  }

  lemma SendKeeps(c: Client, limit: nat, l: Label)
    requires Inv(c, limit)
    ensures Inv(SendStep(c, l), limit)
  {
  }

  lemma WhatInvGives(c: Client, limit: nat)
    requires Inv(c, limit)
    ensures ConnectionOk(c)
  {
  }

  lemma StepKeepsInv(c: Client, limit: nat, l: Label)
    requires Inv(c, limit)
    ensures Inv(Step(limit, c, l), limit)
  {
    DriverKeeps(c, limit, l);
    FailKeeps(c, limit, l);
    LocalKeeps(c, limit, l);
    SendKeeps(c, limit, l);
  }

  lemma {:induction false} RunKeepsInv(c: Client, limit: nat, labels: seq<Label>)
    requires Inv(c, limit)
    ensures Inv(Run(limit, c, labels), limit)
    decreases |labels|
  {
    if labels == [] {
    } else {
      StepKeepsInv(c, limit, labels[0]);
      RunKeepsInv(Step(limit, c, labels[0]), limit, labels[1..]);
    }
  }

  /** Whenever `sessionMu` is free, every local connection belongs to the current control
      connection; and nothing sent for a generation, in particular for one of its local
      connections, was ever written to another generation's connection. */
  lemma EveryRunIsolatesGenerations(limit: nat, labels: seq<Label>)
    ensures var c := Run(limit, START, labels);
      && (c.failing.None? ==> forall id | id in c.table.entries ::
           var ref := c.table.entries[id];
           ref in c.entries && c.entries[ref].id == id && c.conn == Some(c.entries[ref].control))
      && (forall i | 0 <= i < |c.wire| :: var s := c.wire[i];
           s.writer == s.origin && (s.source.Some? ==>
             s.source.value in c.entries && c.entries[s.source.value].control == s.writer))
  {
    RunKeepsInv(START, limit, labels);
    var c := Run(limit, START, labels);
    forall i | 0 <= i < |c.wire| ensures SendOk(c, c.wire[i]) { assert c.wire[i] in c.wire; }
  }

  /** The shown state and port agree with the connection. */
  lemma EveryRunShowsTheConnection(limit: nat, labels: seq<Label>)
    ensures var c := Run(limit, START, labels);
      && (c.conn.None? ==> c.externalPort == 0)
      && (c.externalPort != 0 ==> c.portOf == c.conn)
      && (Live(c.shown) && c.conn.None? ==> c.publishers > 0 || c.failing.Some? || c.driver.Publishing?)
      && (c.conn.Some? && !c.cancelled && !c.driver.Installed? ==> Live(c.shown))
  {
    RunKeepsInv(START, limit, labels);
  }

  /** The table is bounded, the memory is a bounded queue of distinct IDs, and an ID is in both
      only while the finisher of its entry is pending. */
  lemma EveryRunKeepsTableAndMemory(limit: nat, labels: seq<Label>)
    ensures var c := Run(limit, START, labels);
      && |c.table.entries| <= limit && |c.table.order| <= REMEMBERED_IDS
      && (forall id :: id in c.table.closed <==> id in c.table.order)
      && (forall i, j | 0 <= i < j < |c.table.order| :: c.table.order[i] != c.table.order[j])
      && (forall id | id in c.table.entries && id in c.table.closed :: c.table.entries[id] in c.finishing)
  {
    RunKeepsInv(START, limit, labels);
  }

  ghost predicate RememberedThroughout(limit: nat, c: Client, labels: seq<Label>, id: Id)
    decreases |labels|
  {
    id in c.table.closed && (labels != [] ==> RememberedThroughout(limit, Step(limit, c, labels[0]), labels[1..], id))
  }

  lemma RememberedIdStaysShut(limit: nat, c: Client, l: Label, id: Id)
    requires id !in c.table.entries && id in c.table.closed
    ensures id !in Step(limit, c, l).table.entries
  {
  }

  /** An ID that has left the table is not opened again for as long as it is remembered. */
  lemma {:induction false} RememberedIdsStayShut(limit: nat, c: Client, labels: seq<Label>, id: Id)
    requires id !in c.table.entries && RememberedThroughout(limit, c, labels, id)
    ensures id !in Run(limit, c, labels).table.entries
    decreases |labels|
  {
    hide Step;
    if labels == [] {
    } else {
      RememberedIdStaysShut(limit, c, labels[0], id);
      RememberedIdsStayShut(limit, Step(limit, c, labels[0]), labels[1..], id);
    }
  }

  /** The steps that take the entry `ref` of `id` out of the table. */
  predicate Removes(c: Client, l: Label, ref: EntryRef) {
    && c.creating.None?
    && match l
       case FinishEntry(finished) => finished == ref && ref in c.finishing
       case Sweep => c.failing.Some? && c.failing.value.Sweeping?
       case StopSweep => c.cancelled
       case _ => false
  }

  /** A local connection in the table stays what it is in every step but its own finisher and a sweep:
      whatever arrives for its ID meanwhile gets this connection and no other. */
  lemma EntryStaysIff(limit: nat, c: Client, l: Label, id: Id)
    requires Inv(c, limit) && id in c.table.entries
    ensures var t := Step(limit, c, l).table;
      id in t.entries && t.entries[id] == c.table.entries[id] <==> !Removes(c, l, c.table.entries[id])
  {
    hide DriverStep; hide SendStep; hide LocalStep; hide FailStep; hide Removes;
    DriverKeepsLocals(c, l);
    SendKeepsLocals(c, l);
    OtherStepsRemoveNothing(c, l, c.table.entries[id]);
    assert EntryOk(c, id, c.table.entries[id]);
    LocalEntryStaysIff(limit, c, l, id);
    FailEntryStaysIff(c, l, id);
  }

  lemma LocalEntryStaysIff(limit: nat, c: Client, l: Label, id: Id)
    requires TableOk(c.table, limit) && id in c.table.entries
    requires c.table.entries[id] in c.entries && c.entries[c.table.entries[id]].id == id
    ensures var t := LocalStep(limit, c, l).table;
      id in t.entries && t.entries[id] == c.table.entries[id] <==>
        !(l.FinishEntry? && Removes(c, l, c.table.entries[id]))
  {
    match l
    case Create(ref, launched) => CreateKeepsEntry(limit, c, ref, launched, id);
    case FinishEntry(ref) => FinishTakesIff(limit, c, ref, id);
    case CloseRemote(closed) => RememberLeavesEntries(c.table, closed);
    case _ =>
  }

  lemma CreateKeepsEntry(limit: nat, c: Client, ref: EntryRef, launched: bool, id: Id)
    requires TableOk(c.table, limit) && id in c.table.entries
    requires c.table.entries[id] in c.entries && c.entries[c.table.entries[id]].id == id
    ensures var t := LocalStep(limit, c, Create(ref, launched)).table;
      id in t.entries && t.entries[id] == c.table.entries[id]
  {
    hide Remember; hide TableOk;
    if c.creating.Some? { ReserveIff(c.table, c.creating.value.id, ref, limit, launched); }
  }

  lemma FinishTakesIff(limit: nat, c: Client, ref: EntryRef, id: Id)
    requires id in c.table.entries && c.table.entries[id] in c.entries && c.entries[c.table.entries[id]].id == id
    ensures var t := LocalStep(limit, c, FinishEntry(ref)).table;
      id in t.entries && t.entries[id] == c.table.entries[id] <==> !Removes(c, FinishEntry(ref), c.table.entries[id])
  {
    hide Remember;
    if ref in c.entries {
      var other := c.entries[ref].id;
      RememberLeavesEntries(c.table.(entries := c.table.entries - {other}), other);
    }
  }

  lemma OtherStepsRemoveNothing(c: Client, l: Label, ref: EntryRef)
    ensures Removes(c, l, ref) ==> l.FinishEntry? || l.Sweep? || l.StopSweep?
  {
  }

  lemma FailEntryStaysIff(c: Client, l: Label, id: Id)
    requires id in c.table.entries
    ensures var t := FailStep(c, l).table;
      id in t.entries && t.entries[id] == c.table.entries[id] <==>
        !((l.Sweep? || l.StopSweep?) && Removes(c, l, c.table.entries[id]))
  {
  }

  lemma SendKeepsLocals(c: Client, l: Label)
    ensures SendStep(c, l).table == c.table
  {
  }

  /** A new local connection appears exactly when a creator that has passed its check finds its ID
      neither remembered nor in the table, room for it, and its writer can be started; and it belongs to
      the generation the creator has checked. */
  lemma EntryAppearsIff(limit: nat, c: Client, l: Label, id: Id)
    requires Inv(c, limit) && id !in c.table.entries
    ensures var d := Step(limit, c, l);
      && (id in d.table.entries <==>
            && l.Create? && l.launched && l.ref !in c.entries && c.creating.Some? && c.creating.value.id == id
            && id !in c.table.closed && |c.table.entries| < limit)
      && (id in d.table.entries ==>
            && d.table.entries[id] == l.ref && l.ref in d.entries
            && d.entries[l.ref] == Entry(id, c.creating.value.control) && Owns(d, c.creating.value.control))
  {
    hide DriverStep; hide SendStep; hide LocalStep; hide FailStep; hide Owns;
    DriverKeepsLocals(c, l);
    SendKeepsLocals(c, l);
    FailAddsNothing(c, l, id);
    match l
    case Create(ref, launched) =>
      CreateAddsEntryIff(limit, c, ref, launched, id);
      if c.creating.Some? {
        LocalKeepsSends(c, limit, l);
        SameOwners(c, LocalStep(limit, c, l), c.creating.value.control);
      }
    case FinishEntry(ref) => FinishAddsNothing(limit, c, ref, id);
    case _ => OtherLocalsAddNothing(limit, c, l, id);
  }

  lemma SameOwners(c: Client, d: Client, g: Gen)
    requires Owns(c, g) && d.conn == c.conn && d.failing == c.failing
    ensures Owns(d, g)
  {
  }

  lemma FailAddsNothing(c: Client, l: Label, id: Id)
    requires id !in c.table.entries
    ensures id !in FailStep(c, l).table.entries
  {
  }

  lemma CreateAddsEntryIff(limit: nat, c: Client, ref: EntryRef, launched: bool, id: Id)
    requires TableOk(c.table, limit) && id !in c.table.entries
    ensures var d := LocalStep(limit, c, Create(ref, launched));
      && (id in d.table.entries <==>
            && launched && ref !in c.entries && c.creating.Some? && c.creating.value.id == id
            && id !in c.table.closed && |c.table.entries| < limit)
      && (id in d.table.entries ==>
            && d.table.entries[id] == ref && ref in d.entries
            && d.entries[ref] == Entry(id, c.creating.value.control))
  {
    hide Remember; hide TableOk;
    if c.creating.Some? { ReserveIff(c.table, c.creating.value.id, ref, limit, launched); }
  }

  lemma FinishAddsNothing(limit: nat, c: Client, ref: EntryRef, id: Id)
    requires id !in c.table.entries
    ensures id !in LocalStep(limit, c, FinishEntry(ref)).table.entries
  {
    hide Remember;
    if ref in c.entries {
      var other := c.entries[ref].id;
      RememberLeavesEntries(c.table.(entries := c.table.entries - {other}), other);
    }
  }

  lemma OtherLocalsAddNothing(limit: nat, c: Client, l: Label, id: Id)
    requires id !in c.table.entries && !l.Create? && !l.FinishEntry?
    ensures id !in LocalStep(limit, c, l).table.entries
  {
    hide Remember;
    if l.CloseRemote? { RememberLeavesEntries(c.table, l.id); }
  }

  predicate NeverRemoved(limit: nat, c: Client, labels: seq<Label>, ref: EntryRef)
    decreases |labels|
  {
    labels != [] ==> !Removes(c, labels[0], ref) && NeverRemoved(limit, Step(limit, c, labels[0]), labels[1..], ref)
  }

  /** So it is over runs: however many messages arrive for an ID, they all go to the one connection it
      has, until that is finished or swept. */
  lemma {:induction false} EntryStaysOverRuns(limit: nat, c: Client, labels: seq<Label>, id: Id)
    requires Inv(c, limit) && id in c.table.entries && NeverRemoved(limit, c, labels, c.table.entries[id])
    ensures var t := Run(limit, c, labels).table; id in t.entries && t.entries[id] == c.table.entries[id]
    decreases |labels|
  {
    if labels == [] {
    } else {
      hide Inv; hide Step; hide Removes;
      StepKeepsInv(c, limit, labels[0]);
      EntryStaysIff(limit, c, labels[0], id);
      EntryStaysOverRuns(limit, Step(limit, c, labels[0]), labels[1..], id);
    }
  }

  lemma FailKeepsSends(c: Client, l: Label)
    ensures FailStep(c, l).wire == c.wire && FailStep(c, l).sending == c.sending
  {
  }

  lemma FailForgetsNothing(c: Client, l: Label, g: Gen)
    requires g in c.used && c.conn != Some(g)
    ensures var d := FailStep(c, l); g in d.used && d.conn != Some(g) && d.wire == c.wire && d.entries == c.entries
  {
  }

  lemma DriverForgetsNothing(c: Client, l: Label, g: Gen)
    requires g in c.used && c.conn != Some(g)
    ensures g in DriverStep(c, l).used && DriverStep(c, l).conn != Some(g)
  {
  }

  /** A generation that has been replaced or has failed is never current again, keeps the local
      connections it had as its own, and the bytes on the wire only grow. */
  lemma StepForgetsNothing(limit: nat, c: Client, l: Label, g: Gen)
    requires g in c.used && c.conn != Some(g)
    ensures var d := Step(limit, c, l);
      && g in d.used && d.conn != Some(g) && c.wire <= d.wire
      && (forall ref | ref in c.entries :: ref in d.entries && d.entries[ref] == c.entries[ref])
  {
    hide DriverStep; hide LocalStep; hide FailStep;
    DriverForgetsNothing(c, l, g);
    FailForgetsNothing(c, l, g);
    DriverKeepsLocals(c, l);
    DriverKeepsSends(c, l);
    LocalKeepsSends(c, limit, l);
  }

  /** How often the connection of `g` has been written to. */
  function WritesTo(wire: seq<Sending>, g: Gen): nat {
    if wire == [] then 0 else WritesTo(wire[..|wire| - 1], g) + if wire[|wire| - 1].writer == g then 1 else 0
  }

  /** A send to `g` that has passed its check and holds `writeMu`. */
  function PastCheck(c: Client, g: Gen): nat { if c.sending.Some? && c.sending.value.writer == g then 1 else 0 }

  /** Once `g` is not current, a step can turn its one checked send into a write, and nothing can
      check another. */
  lemma StepWritesNoMore(limit: nat, c: Client, l: Label, g: Gen)
    requires ConnectionOk(c) && c.conn != Some(g)
    ensures var d := Step(limit, c, l); WritesTo(d.wire, g) + PastCheck(d, g) <= WritesTo(c.wire, g) + PastCheck(c, g)
  {
    hide DriverStep; hide LocalStep; hide FailStep;
    DriverKeepsSends(c, l);
    LocalKeepsSends(c, limit, l);
    FailKeepsSends(c, l);
    if l.Write? && c.sending.Some? {
      var wire := c.wire + [c.sending.value];
      assert wire[..|wire| - 1] == c.wire;
    }
  }

  /** After a generation has failed, at most the one send that was already past its check is still
      written to it, in any continuation; it is never current again, and its local connections
      stay its own. */
  lemma {:induction false} FailedGenerationsGoQuiet(limit: nat, c: Client, labels: seq<Label>, g: Gen)
    requires Inv(c, limit) && g in c.used && c.conn != Some(g)
    ensures var d := Run(limit, c, labels);
      && WritesTo(d.wire, g) + PastCheck(d, g) <= WritesTo(c.wire, g) + PastCheck(c, g) <= WritesTo(c.wire, g) + 1
      && g in d.used && d.conn != Some(g) && c.wire <= d.wire
      && (forall ref | ref in c.entries :: ref in d.entries && d.entries[ref] == c.entries[ref])
    decreases |labels|
  {
    if labels == [] {
    } else {
      hide Step; hide Inv;
      var d := Step(limit, c, labels[0]);
      WhatInvGives(c, limit);
      StepKeepsInv(c, limit, labels[0]);
      StepForgetsNothing(limit, c, labels[0], g);
      StepWritesNoMore(limit, c, labels[0], g);
      FailedGenerationsGoQuiet(limit, d, labels[1..], g);
    }
  }
}
