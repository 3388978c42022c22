/** When a Welcome may come: joining a room leaves every later pass able to catch up
    exactly when no pass is in the middle of the room's events in the wrong place. */
module JoinTiming {
  import opened Base
  import opened Order
  import opened Mls
  import opened Events
  import opened T = Tables
  import opened Inbound
  import opened Machine
  import opened EpochTracking
  import opened Overlap
  import opened CatchUp
  import opened Uninterrupted
  import CurrentState
  import Invariants
  import Steps
  import Frames
  import Runs

  // --- Working a list of known items ---------------------------------------------------------------

  lemma {:induction false} EpochGrows(db: Db, e: Engine, user: string, hist: History, items: seq<MlsItem>, r: string)
    requires Linear(hist, user) && AllKnown(hist, user, items) && e.device.user == user && HasGroup(e, r)
    requires r in hist.rooms
    ensures var e' := ProcessItems(db, e, user, items, []).engine;
            && e'.device.user == user && HasGroup(e', r)
            && e'.device.groups[r].epoch >= e.device.groups[r].epoch
    decreases |items|
  {
    hide LinearAt, ProcessItem, KnownItem, Commits;
    if items != [] {
      var one := ProcessItem(db, e, user, items[0], Works);
      ItemMoves(db, e, user, hist, items[0], Works, r);
      TailKnown(hist, user, items);
      EpochGrows(one.db, one.engine, user, hist, items[1..], r);
    }
  }

  /** A row that is not worked stays as it is. */
  lemma {:induction false} RowStays(db: Db, e: Engine, user: string, items: seq<MlsItem>, id: string)
    requires id in db.events && forall k | 0 <= k < |items| :: items[k].id != id
    ensures var db' := ProcessItems(db, e, user, items, []).db;
            id in db'.events && db'.events[id] == db.events[id]
    decreases |items|
  {
    hide ProcessItem;
    if items != [] {
      var one := ProcessItem(db, e, user, items[0], Works);
      ItemEffect(db, e, user, items[0], Works);
      RowStays(one.db, one.engine, user, items[1..], id);
    }
  }

  ghost predicate MessageAt(hist: History, user: string, r: string, i: nat)
  {
    r in hist.rooms && i < |hist.rooms[r]| && hist.rooms[r][i].ty == Encrypted && hist.rooms[r][i].sender != user
  }

  /** What handling an item does to a message's row: nothing unless it is that
      message, and no text unless the group is at its epoch. */
  lemma ItemOpens(db: Db, e: Engine, user: string, hist: History, item: MlsItem, r: string, i: nat)
    requires Linear(hist, user) && KnownItem(hist, user, item) && e.device.user == user && HasGroup(e, r)
    requires MessageAt(hist, user, r, i) && hist.rooms[r][i].eventId in db.events
    ensures var id, one := hist.rooms[r][i].eventId, ProcessItem(db, e, user, item, Works);
            && id in one.db.events
            && (item.id != id ==> one.db.events[id] == db.events[id])
            && (e.device.groups[r].epoch != Commits(hist.rooms[r][..i]) ==>
                  one.db.events[id].decrypted == db.events[id].decrypted)
            && (item.id == id && e.device.groups[r].epoch != Commits(hist.rooms[r][..i]) ==>
                  one.db.events[id].state == GaveUp)
  {
    hide LinearAt, CipherOf;
    IdsOfRoom(hist, user, r, i);
    if item.id in hist.at {
      HistoryItem(hist, user, item);
    }
  }

  /** A message the group is past is never opened. */
  lemma {:induction false} TooLate(db: Db, e: Engine, user: string, hist: History, items: seq<MlsItem>, r: string,
      i: nat)
    requires Linear(hist, user) && AllKnown(hist, user, items) && e.device.user == user && HasGroup(e, r)
    requires MessageAt(hist, user, r, i) && hist.rooms[r][i].eventId in db.events
    requires e.device.groups[r].epoch > Commits(hist.rooms[r][..i])
    ensures var id, db' := hist.rooms[r][i].eventId, ProcessItems(db, e, user, items, []).db;
            id in db'.events && db'.events[id].decrypted == db.events[id].decrypted
    decreases |items|
  {
    hide LinearAt, ProcessItem, KnownItem, Commits;
    if items != [] {
      var one := ProcessItem(db, e, user, items[0], Works);
      ItemMoves(db, e, user, hist, items[0], Works, r);
      ItemOpens(db, e, user, hist, items[0], r, i);
      TailKnown(hist, user, items);
      TooLate(one.db, one.engine, user, hist, items[1..], r, i);
    }
  }

  ghost predicate Once(items: seq<MlsItem>, k: nat)
  {
    k < |items| && forall l | 0 <= l < |items| && l != k :: items[l].id != items[k].id
  }

  lemma OnceInTail(items: seq<MlsItem>, k: nat)
    requires Once(items, k)
    ensures k == 0 ==> forall l | 0 <= l < |items[1..]| :: items[1..][l].id != items[0].id
    ensures k > 0 ==> Once(items[1..], k - 1) && items[1..][k - 1] == items[k] && items[0].id != items[k].id
  {
  }

  /** A message worked once either is given up or shows the group to have been at
      its epoch. */
  lemma {:induction false} WorkedMessage(db: Db, e: Engine, user: string, hist: History, items: seq<MlsItem>, k: nat,
      r: string, x: nat)
    requires Linear(hist, user) && AllKnown(hist, user, items) && e.device.user == user && HasGroup(e, r)
    requires MessageAt(hist, user, r, x) && hist.rooms[r][x].eventId in db.events && Once(items, k)
    requires items[k].id == hist.rooms[r][x].eventId && db.events[items[k].id].decrypted.None?
    ensures var id, all := hist.rooms[r][x].eventId, ProcessItems(db, e, user, items, []);
            && id in all.db.events && HasGroup(all.engine, r)
            && ((all.db.events[id].decrypted.None? && all.db.events[id].state == GaveUp)
                || all.engine.device.groups[r].epoch >= Commits(hist.rooms[r][..x]))
    decreases |items|
  {
    hide LinearAt, ProcessItem, KnownItem, Commits;
    var one := ProcessItem(db, e, user, items[0], Works);
    ItemMoves(db, e, user, hist, items[0], Works, r);
    ItemOpens(db, e, user, hist, items[0], r, x);
    TailKnown(hist, user, items);
    OnceInTail(items, k);
    if k > 0 {
      WorkedMessage(one.db, one.engine, user, hist, items[1..], k - 1, r, x);
    } else {
      RowStays(one.db, one.engine, user, items[1..], hist.rooms[r][x].eventId);
      EpochGrows(one.db, one.engine, user, hist, items[1..], r);
    }
  }

  lemma CommitIsDone(db: Db, e: Engine, user: string, hist: History, item: MlsItem, r: string, x: nat)
    requires Linear(hist, user) && KnownItem(hist, user, item) && HasGroup(e, r) && IsCommit(hist, r, x)
    requires item.id == hist.rooms[r][x].eventId && item.id in db.events
    ensures var one := ProcessItem(db, e, user, item, Works);
            item.id in one.db.events && one.db.events[item.id].state == Done
  {
    hide LinearAt, CipherOf;
    IdsOfRoom(hist, user, r, x);
    HistoryItem(hist, user, item);
  }

  /** A commit worked once is consumed. */
  lemma {:induction false} WorkedCommit(db: Db, e: Engine, user: string, hist: History, items: seq<MlsItem>, k: nat,
      r: string, x: nat)
    requires Linear(hist, user) && AllKnown(hist, user, items) && e.device.user == user && HasGroup(e, r)
    requires IsCommit(hist, r, x) && hist.rooms[r][x].eventId in db.events && Once(items, k)
    requires items[k].id == hist.rooms[r][x].eventId
    ensures var id, db' := hist.rooms[r][x].eventId, ProcessItems(db, e, user, items, []).db;
            id in db'.events && db'.events[id].state == Done
    decreases |items|
  {
    hide LinearAt, ProcessItem, KnownItem, Commits;
    var one := ProcessItem(db, e, user, items[0], Works);
    ItemMoves(db, e, user, hist, items[0], Works, r);
    ItemEffect(db, e, user, items[0], Works);
    TailKnown(hist, user, items);
    OnceInTail(items, k);
    if k > 0 {
      WorkedCommit(one.db, one.engine, user, hist, items[1..], k - 1, r, x);
    } else {
      CommitIsDone(db, e, user, hist, items[0], r, x);
      RowStays(one.db, one.engine, user, items[1..], hist.rooms[r][x].eventId);
    }
  }

  lemma {:induction false} NothingMissedWhenAllWorks(db: Db, e: Engine, user: string, items: seq<MlsItem>)
    ensures Missed(db, e, user, items, []) == {}
    decreases |items|
  {
    hide ProcessItem;
    if items != [] {
      var one := ProcessItem(db, e, user, items[0], Works);
      NothingMissedWhenAllWorks(one.db, one.engine, user, items[1..]);
    }
  }

  /** The stream stays one of known items. */
  lemma {:induction false} StreamStaysKnown(db: Db, e: Engine, user: string, hist: History, n: Counts,
      items: seq<MlsItem>)
    requires Linear(hist, user) && n.Keys == hist.rooms.Keys && RowsKnown(db, hist, user, n)
    ensures RowsKnown(ProcessItems(db, e, user, items, []).db, hist, user, n)
    decreases |items|
  {
    hide LinearAt, ProcessItem, OwnItem;
    if items != [] {
      var one := ProcessItem(db, e, user, items[0], Works);
      ItemEffect(db, e, user, items[0], Works);
      StreamStaysKnown(one.db, one.engine, user, hist, n, items[1..]);
    }
  }

  // --- The pass that leaves an event behind, and the next one -------------------------------------------

  /** The event is out of reach: an applied commit would have moved the group past it,
      a message opened would show its text. */
  ghost predicate Lost(db: Db, e: Engine, hist: History, r: string, i: nat)
    requires r in hist.rooms && i < |hist.rooms[r]|
  {
    var ev := hist.rooms[r][i];
    && HasGroup(e, r)
    && if ev.ty == MlsCommit then e.device.groups[r].epoch <= Commits(hist.rooms[r][..i])
       else ev.eventId in db.events && db.events[ev.eventId].decrypted.None?
  }

  /** Important, stored, and not opened. */
  ghost predicate Unopened(db: Db, hist: History, user: string, r: string, i: nat)
  {
    && r in hist.rooms && i < |hist.rooms[r]| && Important(hist.rooms[r][i], user)
    && hist.rooms[r][i].eventId in db.events
    && (hist.rooms[r][i].ty == Encrypted ==> db.events[hist.rooms[r][i].eventId].decrypted.None?)
  }

  lemma HandledNotInStream(db: Db, id: string)
    requires CurrentState.RowsAgree(db) && id in db.events && db.events[id].state != Untried
    ensures forall k | 0 <= k < |PendingMls(db)| :: PendingMls(db)[k].id != id
  {
    forall k: nat | k < |PendingMls(db)| ensures PendingMls(db)[k].id != id {
      StreamRow(db, k);
      var rank := Ordered(MlsRanks(db))[k];
      assert db.events[rank.id].ev.eventId == rank.id;
    }
  }

  lemma StreamAllKnown(db: Db, hist: History, user: string, n: Counts)
    requires Linear(hist, user) && n.Keys == hist.rooms.Keys && RowsKnown(db, hist, user, n)
             && CurrentState.RowsAgree(db)
    ensures AllKnown(hist, user, PendingMls(db))
  {
    hide Linear, PendingMls, MlsRanks, Ordered, RowsKnown, CurrentState.RowsAgree;
    forall k: nat | k < |PendingMls(db)| {
      StreamKnown(db, hist, user, n, k);
    }
  }

  ghost predicate Settled(db: Db, e: Engine, user: string, hist: History, n: Counts)
  {
    && Linear(hist, user) && n.Keys == hist.rooms.Keys && e.device.user == user
    && RowsKnown(db, hist, user, n) && CurrentState.RowsAgree(db)
  }

  /** The group has passed an event that was not worked: the next pass loses it. */
  lemma Overtaken(db: Db, e: Engine, user: string, hist: History, n: Counts, r: string, i: nat)
    requires Settled(db, e, user, hist, n) && Unopened(db, hist, user, r, i) && HasGroup(e, r)
    requires hist.rooms[r][i].ty == Encrypted && e.device.groups[r].epoch > Commits(hist.rooms[r][..i])
    ensures var p := ProcessPending(db, e, user, []); Lost(p.db, p.engine, hist, r, i)
  {
    hide Linear, RowsKnown, CurrentState.RowsAgree, PendingMls, ProcessItems, Commits;
    StreamAllKnown(db, hist, user, n);
    TooLate(db, e, user, hist, PendingMls(db), r, i);
    EpochGrows(db, e, user, hist, PendingMls(db), r);
  }

  /** A message given up stays without its text. */
  lemma GivenUpIsLost(db: Db, e: Engine, user: string, hist: History, n: Counts, r: string, x: nat)
    requires Settled(db, e, user, hist, n) && Unopened(db, hist, user, r, x) && HasGroup(e, r)
    requires hist.rooms[r][x].ty == Encrypted && db.events[hist.rooms[r][x].eventId].state == GaveUp
    ensures var p := ProcessPending(db, e, user, []); Lost(p.db, p.engine, hist, r, x)
  {
    hide Linear, RowsKnown, CurrentState.RowsAgree, PendingMls, ProcessItems, Commits;
    StreamAllKnown(db, hist, user, n);
    HandledNotInStream(db, hist.rooms[r][x].eventId);
    RowStays(db, e, user, PendingMls(db), hist.rooms[r][x].eventId);
    EpochGrows(db, e, user, hist, PendingMls(db), r);
  }

  /** A commit consumed unapplied is never applied. */
  lemma ConsumedIsLost(db: Db, e: Engine, user: string, hist: History, n: Counts, r: string, x: nat)
    requires Settled(db, e, user, hist, n) && Unopened(db, hist, user, r, x) && HasGroup(e, r)
    requires IsCommit(hist, r, x) && db.events[hist.rooms[r][x].eventId].state == Done
    requires e.device.groups[r].epoch <= Commits(hist.rooms[r][..x])
    ensures var p := ProcessPending(db, e, user, []); Lost(p.db, p.engine, hist, r, x)
  {
    hide Linear, RowsKnown, CurrentState.RowsAgree, PendingMls, ProcessItems, Commits;
    StreamAllKnown(db, hist, user, n);
    HandledNotInStream(db, hist.rooms[r][x].eventId);
    NeverPasses(db, e, user, hist, PendingMls(db), [], r, x);
  }

  /** Item `k` of a pass stands for event `x`, and event `i`, which it would leave
      behind, is not among its items. */
  ghost predicate LeavesBehind(db: Db, e: Engine, user: string, hist: History, todo: seq<MlsItem>, k: nat, r: string,
      i: nat, x: nat)
    requires Linear(hist, user)
  {
    && AllKnown(hist, user, todo) && Once(todo, k) && HasGroup(e, r)
    && Unopened(db, hist, user, r, i) && Unopened(db, hist, user, r, x) && Behind(hist.rooms[r], i, x)
    && todo[k].id == hist.rooms[r][x].eventId
    && (forall l | 0 <= l < |todo| :: todo[l].id != hist.rooms[r][i].eventId)
    && e.device.groups[r].epoch <= Commits(hist.rooms[r][..i])
  }

  /** Once the group is past the event left behind, that one is lost. */
  lemma BehindIsLost(db: Db, e: Engine, user: string, hist: History, n: Counts, todo: seq<MlsItem>, k: nat, r: string,
      i: nat, x: nat)
    requires Linear(hist, user) && e.device.user == user && LeavesBehind(db, e, user, hist, todo, k, r, i, x)
    requires var p := ProcessItems(db, e, user, todo, []); Settled(p.db, p.engine, user, hist, n)
    requires var e1 := ProcessItems(db, e, user, todo, []).engine;
             HasGroup(e1, r) && e1.device.groups[r].epoch > Commits(hist.rooms[r][..i])
    ensures var p := ProcessItems(db, e, user, todo, []);
            var q := ProcessPending(p.db, p.engine, user, []);
            Lost(q.db, q.engine, hist, r, i)
  {
    hide Linear, RowsKnown, CurrentState.RowsAgree, ProcessItems, ProcessPending, Commits, AllKnown, KnownItem, Lost;
    if hist.rooms[r][i].ty == MlsCommit {
      NeverPasses(db, e, user, hist, todo, [], r, i);
      assert false;
    } else {
      RowStays(db, e, user, todo, hist.rooms[r][i].eventId);
      var p := ProcessItems(db, e, user, todo, []);
      Overtaken(p.db, p.engine, user, hist, n, r, i);
    }
  }

  /** That pass and the next one lose one of the two for good. */
  lemma OneIsLost(db: Db, e: Engine, user: string, hist: History, n: Counts, todo: seq<MlsItem>, k: nat, r: string,
      i: nat, x: nat)
    requires Linear(hist, user) && e.device.user == user && LeavesBehind(db, e, user, hist, todo, k, r, i, x)
    requires var p := ProcessItems(db, e, user, todo, []); Settled(p.db, p.engine, user, hist, n)
    ensures var p := ProcessItems(db, e, user, todo, []);
            var q := ProcessPending(p.db, p.engine, user, []);
            Lost(q.db, q.engine, hist, r, i) || Lost(q.db, q.engine, hist, r, x)
  {
    hide Linear, RowsKnown, CurrentState.RowsAgree, ProcessItems, ProcessPending, Commits, AllKnown, KnownItem, Lost;
    var p := ProcessItems(db, e, user, todo, []);
    EpochGrows(db, e, user, hist, todo, r);
    CommitsNext(hist.rooms[r], x);
    if p.engine.device.groups[r].epoch > Commits(hist.rooms[r][..i]) {
      BehindIsLost(db, e, user, hist, n, todo, k, r, i, x);
    } else if hist.rooms[r][x].ty == MlsCommit {
      WorkedCommit(db, e, user, hist, todo, k, r, x);
      ConsumedIsLost(p.db, p.engine, user, hist, n, r, x);
    } else {
      WorkedMessage(db, e, user, hist, todo, k, r, x);
      GivenUpIsLost(p.db, p.engine, user, hist, n, r, x);
    }
  }

  // --- The same in the machine -------------------------------------------------------------------------

  /** What the rest of a pass's first item leaves as it was. */
  ghost predicate OnlyItem(s: Sys, s': Sys, item: MlsItem)
  {
    && OnlyInbound(s, s') && s'.missed == s.missed
    && s'.db.events.Keys == s.db.events.Keys
    && (forall id | id in s.db.events && id != item.id :: s'.db.events[id] == s.db.events[id])
    && (item.id in s.db.events ==>
          && s'.db.events[item.id].ev == s.db.events[item.id].ev
          && (s'.db.events[item.id].state == Untried ==> s.db.events[item.id].state == Untried))
    && s'.engine.device.user == s.engine.device.user
    && s'.engine.device.groups.Keys == s.engine.device.groups.Keys
    && (forall r | HasGroup(s.engine, r) && r != item.room :: s'.engine.device.groups[r] == s.engine.device.groups[r])
  }

  lemma WorkOnlyItem(s: Sys, p: nat)
    requires p in s.passes && s.passes[p].todo != [] && s.passes[p].stage == Work
    ensures OnlyItem(s, DoWork(s, p, Works), s.passes[p].todo[0])
    ensures var s' := DoWork(s, p, Works);
            p in s'.passes && s'.passes[p].todo == s.passes[p].todo && s'.passes[p].stage.Write?
            && NextItem(s', p).passes == NextItem(s, p).passes
  {
    hide DoWork, WorkEngine, WorkText, WorkOut, Out;
    WorkIs(s, p, Works);
    WorkElsewhere(s.engine, s.user, s.passes[p].todo[0], Works);
    WorkMissesNone(s, p);
  }

  lemma WorkMissesNone(s: Sys, p: nat)
    requires p in s.passes && s.passes[p].todo != []
    ensures DoWork(s, p, Works).missed == s.missed
  {
    hide Decrypt, ProcessCommit;
  }

  lemma WriteOnlyItem(s: Sys, p: nat)
    requires p in s.passes && s.passes[p].todo != [] && s.passes[p].stage.Write?
    ensures OnlyItem(s, DoWrite(s, p), s.passes[p].todo[0]) && DoWrite(s, p).passes == NextItem(s, p).passes
  {
  }

  /** From the engine call, or from the write that records it, to the next item. */
  lemma FinishWork(s: Sys, p: nat) returns (actions: seq<Action>, s': Sys)
    requires p in s.passes && s.passes[p].todo != [] && (s.passes[p].stage == Work || s.passes[p].stage.Write?)
    ensures Leads(s, actions, s') && StepsOf(actions, p, Works)
    ensures OnlyItem(s, s', s.passes[p].todo[0]) && s'.passes == NextItem(s, p).passes
  {
    hide Leads, Told, DoWork, DoWrite, HasGroup, OnlyItem, NextItem;
    Stay(s);
    actions, s' := [], s;
    ItemStays(s, s.passes[p].todo[0]);
    if s.passes[p].stage == Work {
      WorkOnlyItem(s, p);
      Uninterrupted.Step(s, actions, s, p, Works);
      actions, s' := actions + [PassStep(p, Works)], DoWork(s, p, Works);
    }
    WriteOnlyItem(s', p);
    Uninterrupted.Step(s, actions, s', p, Works);
    ItemThen(s, s', DoWrite(s', p), s.passes[p].todo[0]);
    actions, s' := actions + [PassStep(p, Works)], DoWrite(s', p);
  }

  /** A pass in the middle of an item gets to the next one. */
  lemma FinishAlone(s: Sys, p: nat) returns (actions: seq<Action>, s': Sys)
    requires p in s.passes && s.passes[p].todo != [] && !s.passes[p].stage.Check?
    ensures Leads(s, actions, s') && StepsOf(actions, p, Works)
    ensures OnlyItem(s, s', s.passes[p].todo[0]) && s'.passes == NextItem(s, p).passes
  {
    hide Leads, Told, HasPendingSend, HasGroup, OnlyItem, DoWork, DoWrite, StepsOf;
    if s.passes[p].stage == Own {
      Stay(s);
      var s1 := DoPassStep(s, p, Works);
      Uninterrupted.Step(s, [], s, p, Works);
      actions, s' := [] + [PassStep(p, Works)], s1;
      OneStep(p);
      PassesOnlyItem(s, s1, s.passes[p].todo[0]);
      if !HasPendingSend(s.db, s.passes[p].todo[0].room) {
        var more, s2 := FinishWork(s1, p);
        Then(s, actions, s1, more, s2);
        StepsThen(actions, more, p, Works);
        ItemThen(s, s1, s2, s.passes[p].todo[0]);
        actions, s' := actions + more, s2;
      }
    } else {
      actions, s' := FinishWork(s, p);
    }
  }

  lemma OneStep(p: nat)
    ensures StepsOf([] + [PassStep(p, Works)], p, Works)
  {
  }

  lemma ItemStays(s: Sys, item: MlsItem)
    ensures OnlyItem(s, s, item)
  {
  }

  lemma PassesOnlyItem(s: Sys, s': Sys, item: MlsItem)
    requires s' == s.(passes := s'.passes)
    ensures OnlyItem(s, s', item)
  {
  }

  lemma ItemThen(s: Sys, s1: Sys, s2: Sys, item: MlsItem)
    requires OnlyItem(s, s1, item) && OnlyItem(s1, s2, item)
    ensures OnlyItem(s, s2, item)
  {
  }

  lemma {:induction false} LeadsKeeps(s: Sys, actions: seq<Action>, s': Sys)
    requires Invariants.Inv(s) && Leads(s, actions, s')
    ensures Invariants.Inv(s')
    decreases |actions|
  {
    hide Do, Enabled, Invariants.Inv;
    if actions != [] {
      Steps.StepKeeps(s, actions[0]);
      LeadsKeeps(Do(s, actions[0]), actions[1..], s');
    }
  }

  /** Nothing but steps of pass `p`, which begins anew at step `a`. */
  predicate BeginsOnceAt(actions: seq<Action>, p: nat, a: nat)
  {
    && a < |actions| && actions[a] == PassBegin(p)
    && forall k | 0 <= k < |actions| && k != a :: actions[k] == PassStep(p, Works)
  }

  /** A pass left alone to its end, and a new one after it. */
  lemma PassThenNext(s: Sys, p: nat) returns (actions: seq<Action>, s': Sys, a: nat)
    requires p in s.passes && s.passes[p].todo != [] && s.passes[p].stage.Check?
    ensures Leads(s, actions, s') && BeginsOnceAt(actions, p, a)
    ensures OnlyInbound(s, s') && s'.passes == s.passes - {p} && s'.missed == s.missed
    ensures var first := ProcessItems(s.db, s.engine, s.user, s.passes[p].todo, []);
            var next := ProcessPending(first.db, first.engine, s.user, []);
            s'.db == next.db && s'.engine == next.engine
    ensures Invariants.Inv(s) ==>
              CurrentState.RowsAgree(ProcessItems(s.db, s.engine, s.user, s.passes[p].todo, []).db)
  {
    hide Leads, Told, ProcessItems, ProcessPending, StepsOf, PendingMls, Invariants.Inv, CurrentState.RowsAgree;
    var first, s1 := ItemsAlone(s, p, []);
    NothingMissedWhenAllWorks(s.db, s.engine, s.user, s.passes[p].todo);
    if Invariants.Inv(s) {
      LeadsKeeps(s, first, s1);
      AgreeOf(s1);
    }
    var next;
    next, s' := WholePassAlone(s1, p);
    Then(s, first, s1, next, s');
    actions, a := first + next, |first|;
    OnceAfter(first, next, p);
  }

  lemma OnceAfter(first: seq<Action>, next: seq<Action>, p: nat)
    requires StepsOf(first, p, Works) && BeginsOnceAt(next, p, 0)
    ensures BeginsOnceAt(first + next, p, |first|)
  {
  }

  lemma OnceLater(first: seq<Action>, next: seq<Action>, p: nat, a: nat)
    requires StepsOf(first, p, Works) && BeginsOnceAt(next, p, a)
    ensures BeginsOnceAt(first + next, p, |first| + a)
  {
  }

  lemma WholePassAlone(s: Sys, p: nat) returns (actions: seq<Action>, s': Sys)
    requires p !in s.passes
    ensures Leads(s, actions, s') && BeginsOnceAt(actions, p, 0)
    ensures OnlyInbound(s, s') && s'.passes == s.passes && s'.missed == s.missed
    ensures var all := ProcessPending(s.db, s.engine, s.user, []);
            s'.db == all.db && s'.engine == all.engine
  {
    hide Leads, Told, ProcessItems, PendingMls, OnlyInbound;
    if PendingMls(s.db) == [] {
      BeginsPass(s, p);
      actions, s' := [PassBegin(p)], s;
      NothingToProcess(s.db, s.engine, s.user, []);
    } else {
      actions, s' := PassAlone(s, p, []);
      NothingMissedWhenAllWorks(s.db, s.engine, s.user, PendingMls(s.db));
      StepsBehind(actions, p);
    }
  }

  lemma StepsBehind(actions: seq<Action>, p: nat)
    requires actions != [] && actions[0] == PassBegin(p) && StepsOf(actions[1..], p, Works)
    ensures BeginsOnceAt(actions, p, 0)
  {
    forall k | 0 <= k < |actions| && k != 0 ensures actions[k] == PassStep(p, Works) {
      assert actions[k] == actions[1..][k - 1];
    }
  }

  // --- Such a run is tame -----------------------------------------------------------------------------------

  function Same(n: Counts, len: nat): seq<Counts>
  {
    seq(len, _ => n)
  }

  lemma {:induction false} HeldAlong(states: seq<Sys>, actions: seq<Action>, k: nat, r: string)
    requires IsRun(states, actions) && Invariants.Inv(states[0]) && k < |states|
    requires (forall i | 0 <= i < |actions| :: !actions[i].Crash?)
    ensures Invariants.Inv(states[k]) && states[k].user == states[0].user
    ensures HasGroup(states[0].engine, r) ==> HasGroup(states[k].engine, r)
  {
    hide Invariants.Inv, Do, Enabled, HasGroup;
    if k > 0 {
      HeldAlong(states, actions, k - 1, r);
      Steps.StepKeeps(states[k - 1], actions[k - 1]);
      Frames.StepFrame(states[k - 1], actions[k - 1]);
      if HasGroup(states[k - 1].engine, r) {
        HeldStays(states[k - 1], actions[k - 1], r);
      }
    }
  }

  lemma StepIsTame(s: Sys, a: Action, hist: History, n: Counts, p: nat)
    requires Linear(hist, s.user) && n.Keys == hist.rooms.Keys && Enabled(s, a)
    requires a == PassBegin(p) || a == PassStep(p, Works)
    ensures Tame(s, a, hist, n, n) && (a.PassStep? ==> p in s.passes)
  {
    hide Linear;
  }

  lemma TameAlone(states: seq<Sys>, actions: seq<Action>, hist: History, n: Counts, p: nat, a: nat)
    requires IsRun(states, actions) && Invariants.Inv(states[0]) && BeginsOnceAt(actions, p, a)
    requires Linear(hist, states[0].user) && n.Keys == hist.rooms.Keys && p !in states[|actions|].passes
    ensures TameRun(states, actions, hist, Same(n, |states|)) && WholePass(states, actions, p, a, |actions|)
  {
    hide Linear, Do, Enabled, Tame, Invariants.Inv;
    forall i: nat | i < |states| ensures states[i].user == states[0].user {
      HeldAlong(states, actions, i, "");
    }
    forall i: nat | i < |actions|
      ensures Tame(states[i], actions[i], hist, n, n) && (actions[i].PassStep? ==> p in states[i].passes)
    {
      HeldAlong(states, actions, i, "");
      StepIsTame(states[i], actions[i], hist, n, p);
    }
  }

  // --- What is lost keeps the device from catching up --------------------------------------------------------

  lemma LostIsNotCaughtUp(s: Sys, hist: History, r: string, n: nat, i: nat)
    requires r in hist.rooms && r in hist.joinAt && i < n <= |hist.rooms[r]| && Lost(s.db, s.engine, hist, r, i)
    requires Important(hist.rooms[r][i], s.user) && SinceJoin(hist.rooms[r], i, hist.joinAt[r])
    requires hist.rooms[r][i].ty == Encrypted ==>
               hist.rooms[r][i].eventId !in Out(s) && CipherOf(hist.rooms[r][i]).text.Some?
    ensures !CaughtUpTo(s, hist, r, n)
  {
    hide InHand, CipherOf;
    var h := hist.rooms[r];
    CommitsNext(h, i);
    CommitsGrow(h, i + 1, n);
  }

  lemma HandsShrink(passes: map<nat, Pass>, p: nat)
    ensures InHand(passes - {p}) <= InHand(passes)
  {
    forall id | id in InHand(passes - {p}) ensures id in InHand(passes) {
      var q :| q in passes - {p} && passes[q].todo != [] && passes[q].stage.Write? && passes[q].stage.text.Some?
          && passes[q].todo[0].id == id;
      assert q in passes;
    }
  }

  // --- Right after the join ----------------------------------------------------------------------------------

  /** A pass has event `x` of the room ahead, as item `k`, and has skipped event `i`. */
  ghost predicate Skips(s: Sys, hist: History, p: nat, k: nat, r: string, i: nat, x: nat)
  {
    && p in s.passes && k < |s.passes[p].todo|
    && s.passes[p].todo[k].id in hist.at && hist.at[s.passes[p].todo[k].id] == Place(r, x)
    && Waiting(s, hist, r, x) && Waiting(s, hist, r, i) && Behind(hist.rooms[r], i, x)
    && !InFront(s.passes[p].todo, k, hist.rooms[r][i].eventId)
  }

  /** Room `r`, just joined at `j`: all its passes' items are known, and none is at
      work on one of the room. */
  ghost predicate JustJoined(s: Sys, hist: History, n: Counts, r: string)
  {
    && Invariants.Inv(s) && Settled(s.db, s.engine, s.user, hist, n) && r in hist.rooms && r in hist.joinAt
    && HasGroup(s.engine, r) && s.engine.device.groups[r].epoch == hist.joinAt[r]
    && (forall p | p in s.passes ::
          && s.passes[p].todo != [] && TodoKnown(hist, s.user, s.passes[p].todo)
          && (!s.passes[p].stage.Check? ==> s.passes[p].todo[0].room != r))
    && RoomStands(s, hist, n, r)
  }

  /** Stored, important, sealed or committed since the join, and its text nowhere. */
  ghost predicate Missable(s: Sys, hist: History, n: Counts, r: string, i: nat)
  {
    && r in hist.rooms && r in hist.joinAt && r in n && i < n[r] <= |hist.rooms[r]|
    && Unopened(s.db, hist, s.user, r, i) && SinceJoin(hist.rooms[r], i, hist.joinAt[r])
    && (hist.rooms[r][i].ty == Encrypted ==> hist.rooms[r][i].eventId !in Out(s))
  }

  lemma WaitingIsMissable(s: Sys, hist: History, n: Counts, r: string, i: nat)
    requires r in hist.rooms && r in hist.joinAt && r in n && RoomStands(s, hist, n, r)
    requires Waiting(s, hist, r, i) && i < n[r]
    ensures Missable(s, hist, n, r, i)
  {
    hide Out, CipherOf, KeyOf, Commits;
    var h, j := hist.rooms[r], hist.joinAt[r];
    assert RowStands(s.db, Out(s), EpochIn(s.engine, r, j), SpentIn(s.engine, r), h, j, n[r], i);
  }

  lemma AheadIsStored(s: Sys, hist: History, n: Counts, p: nat, k: nat, r: string, x: nat)
    requires Invariants.Inv(s) && p in s.passes && k < |s.passes[p].todo|
    requires r in hist.rooms && r in hist.joinAt && r in n && RoomStands(s, hist, n, r)
    requires Waiting(s, hist, r, x) && s.passes[p].todo[k].id == hist.rooms[r][x].eventId
    ensures x < n[r]
  {
    hide Out, CipherOf, KeyOf, Commits, Overlap.Pending;
    assert Invariants.PassStands(s.db, s.user, s.passes[p]);
    assert Invariants.ItemStands(s.db, s.passes[p].todo[k]);
    var h, j := hist.rooms[r], hist.joinAt[r];
    assert RowStands(s.db, Out(s), EpochIn(s.engine, r, j), SpentIn(s.engine, r), h, j, n[r], x);
  }

  lemma ItemsOnce(hist: History, user: string, todo: seq<MlsItem>, k: nat, r: string, i: nat, x: nat)
    requires Linear(hist, user) && TodoKnown(hist, user, todo) && k < |todo|
    requires todo[k].id in hist.at && hist.at[todo[k].id] == Place(r, x)
    requires r in hist.rooms && i < x < |hist.rooms[r]| && !InFront(todo, k, hist.rooms[r][i].eventId)
    ensures Once(todo, k) && todo[k].id == hist.rooms[r][x].eventId
    ensures forall l | 0 <= l < |todo| :: todo[l].id != hist.rooms[r][i].eventId
  {
    hide LinearAt, KnownItem;
    IdsOfRoom(hist, user, r, i);
    IdsOfRoom(hist, user, r, x);
    assert hist.rooms[hist.at[todo[k].id].room][hist.at[todo[k].id].i].eventId == todo[k].id;
  }

  lemma SkipsLeavesBehind(s: Sys, hist: History, n: Counts, p: nat, k: nat, r: string, i: nat, x: nat)
    requires JustJoined(s, hist, n, r) && Skips(s, hist, p, k, r, i, x)
    ensures LeavesBehind(s.db, s.engine, s.user, hist, s.passes[p].todo, k, r, i, x)
    ensures Missable(s, hist, n, r, i) && Missable(s, hist, n, r, x)
  {
    hide LinearAt, Invariants.Inv, RowsKnown, CurrentState.RowsAgree, RoomStands, Overlap.Pending, Out, KnownItem;
    ItemsOnce(hist, s.user, s.passes[p].todo, k, r, i, x);
    AheadIsStored(s, hist, n, p, k, r, x);
    WaitingIsMissable(s, hist, n, r, x);
    WaitingIsMissable(s, hist, n, r, i);
  }

  lemma UnopenedStill(s: Sys, t: Sys, hist: History, user: string, item: MlsItem, r: string, i: nat)
    requires OnlyItem(s, t, item) && Unopened(s.db, hist, user, r, i) && item.id != hist.rooms[r][i].eventId
    ensures Unopened(t.db, hist, user, r, i)
  {
    hide OnlyInbound;
  }

  lemma KnownStill(s: Sys, t: Sys, hist: History, user: string, n: Counts, item: MlsItem)
    requires Linear(hist, user) && n.Keys == hist.rooms.Keys && RowsKnown(s.db, hist, user, n) && OnlyItem(s, t, item)
    ensures RowsKnown(t.db, hist, user, n) && t.engine.device.user == s.engine.device.user
    ensures forall r | HasGroup(s.engine, r) && r != item.room ::
              HasGroup(t.engine, r) && t.engine.device.groups[r] == s.engine.device.groups[r]
  {
    hide LinearAt, OwnItem, OnlyInbound;
  }

  lemma StillBehind(s: Sys, t: Sys, hist: History, n: Counts, todo: seq<MlsItem>, k: nat, r: string, i: nat, x: nat)
    requires Settled(s.db, s.engine, s.user, hist, n) && LeavesBehind(s.db, s.engine, s.user, hist, todo, k, r, i, x)
    requires k > 0 && OnlyItem(s, t, todo[0]) && todo[0].room != r
    ensures LeavesBehind(t.db, t.engine, s.user, hist, todo[1..], k - 1, r, i, x)
    ensures RowsKnown(t.db, hist, s.user, n) && t.engine.device.user == s.user
  {
    hide Linear, AllKnown, CurrentState.RowsAgree, RowsKnown, OnlyItem, Unopened, Commits, Once;
    OnceIn(todo, k);
    OnceInTail(todo, k);
    TailKnown(hist, s.user, todo);
    RangeOf(s.db, hist, s.user, r, i);
    RangeOf(s.db, hist, s.user, r, x);
    UnopenedStill(s, t, hist, s.user, todo[0], r, i);
    UnopenedStill(s, t, hist, s.user, todo[0], r, x);
    KnownStill(s, t, hist, s.user, n, todo[0]);
  }

  lemma OnceIn(todo: seq<MlsItem>, k: nat)
    requires Once(todo, k)
    ensures k < |todo|
  {
  }

  lemma RangeOf(db: Db, hist: History, user: string, r: string, i: nat)
    requires Unopened(db, hist, user, r, i)
    ensures r in hist.rooms && i < |hist.rooms[r]|
  {
  }

  /** A pass with event `x` ahead and event `i` skipped, and the next pass, lose one
      of the two. */
  lemma PassesLose(t: Sys, hist: History, n: Counts, p: nat, k: nat, r: string, i: nat, x: nat)
      returns (actions: seq<Action>, s': Sys, a: nat)
    requires Invariants.Inv(t) && Linear(hist, t.user) && n.Keys == hist.rooms.Keys && t.engine.device.user == t.user
    requires RowsKnown(t.db, hist, t.user, n)
    requires p in t.passes && t.passes[p].todo != [] && t.passes[p].stage.Check?
    requires LeavesBehind(t.db, t.engine, t.user, hist, t.passes[p].todo, k, r, i, x)
    ensures Leads(t, actions, s') && BeginsOnceAt(actions, p, a)
    ensures OnlyInbound(t, s') && s'.passes == t.passes - {p} && s'.missed == t.missed
    ensures Lost(s'.db, s'.engine, hist, r, i) || Lost(s'.db, s'.engine, hist, r, x)
  {
    hide Linear, Invariants.Inv, RowsKnown, CurrentState.RowsAgree, ProcessItems, ProcessPending, AllKnown, Lost,
        Leads, BeginsOnceAt, OnlyInbound;
    actions, s', a := PassThenNext(t, p);
    EpochGrows(t.db, t.engine, t.user, hist, t.passes[p].todo, r);
    StreamStaysKnown(t.db, t.engine, t.user, hist, n, t.passes[p].todo);
    OneIsLost(t.db, t.engine, t.user, hist, n, t.passes[p].todo, k, r, i, x);
  }

  lemma JoinedFacts(s: Sys, hist: History, n: Counts, r: string, p: nat)
    requires JustJoined(s, hist, n, r) && p in s.passes
    ensures Invariants.Inv(s) && Settled(s.db, s.engine, s.user, hist, n) && s.passes[p].todo != []
  {
    hide Linear, Invariants.Inv, RowsKnown, CurrentState.RowsAgree, TodoKnown, RoomStands;
  }

  /** From any stage of the pass. */
  lemma SkippedIsLost(s: Sys, hist: History, n: Counts, p: nat, k: nat, r: string, i: nat, x: nat)
      returns (actions: seq<Action>, s': Sys, a: nat)
    requires JustJoined(s, hist, n, r) && Skips(s, hist, p, k, r, i, x) && r in hist.rooms
    requires i < |hist.rooms[r]| && x < |hist.rooms[r]|
    ensures Leads(s, actions, s') && BeginsOnceAt(actions, p, a) && p in s.passes
    ensures OnlyInbound(s, s') && s'.passes == s.passes - {p} && s'.missed == s.missed
    ensures Lost(s'.db, s'.engine, hist, r, i) || Lost(s'.db, s'.engine, hist, r, x)
  {
    hide JustJoined, Linear, Invariants.Inv, RowsKnown, CurrentState.RowsAgree, Lost, Leads, BeginsOnceAt,
        LeavesBehind, Waiting, OnlyInbound, InFront, Behind;
    JoinedFacts(s, hist, n, r, p);
    SkipsLeavesBehind(s, hist, n, p, k, r, i, x);
    if s.passes[p].stage.Check? {
      actions, s', a := PassesLose(s, hist, n, p, k, r, i, x);
    } else {
      NotFirst(s, hist, n, p, k, r, i, x);
      actions, s', a := SkippedAtWork(s, hist, n, p, k, r, i, x);
    }
  }

  lemma SkippedAtWork(s: Sys, hist: History, n: Counts, p: nat, k: nat, r: string, i: nat, x: nat)
      returns (actions: seq<Action>, s': Sys, a: nat)
    requires Invariants.Inv(s) && Settled(s.db, s.engine, s.user, hist, n)
    requires p in s.passes && |s.passes[p].todo| > 1 && !s.passes[p].stage.Check? && s.passes[p].todo[0].room != r
    requires k > 0 && LeavesBehind(s.db, s.engine, s.user, hist, s.passes[p].todo, k, r, i, x)
    ensures Leads(s, actions, s') && BeginsOnceAt(actions, p, a)
    ensures OnlyInbound(s, s') && s'.passes == s.passes - {p} && s'.missed == s.missed
    ensures Lost(s'.db, s'.engine, hist, r, i) || Lost(s'.db, s'.engine, hist, r, x)
  {
    hide Linear, Invariants.Inv, RowsKnown, CurrentState.RowsAgree, AllKnown, Lost, Leads, BeginsOnceAt, OnlyItem,
        Unopened, Once, OnlyInbound, StepsOf, Told;
    var first, t := FinishAlone(s, p);
    LeadsKeeps(s, first, t);
    StillBehind(s, t, hist, n, s.passes[p].todo, k, r, i, x);
    ItemIsInbound(s, t, s.passes[p].todo[0]);
    var next, s2, a2 := PassesLose(t, hist, n, p, k - 1, r, i, x);
    Then(s, first, t, next, s2);
    OnceLater(first, next, p, a2);
    InboundThen(s, t, s2);
    actions, s', a := first + next, s2, |first| + a2;
    assert NextItem(s, p).passes - {p} == s.passes - {p};
  }

  lemma ItemIsInbound(s: Sys, t: Sys, item: MlsItem)
    requires OnlyItem(s, t, item)
    ensures OnlyInbound(s, t) && t.missed == s.missed && t.user == s.user
  {
  }

  /** A pass at work stands on an item of another room. */
  lemma NotFirst(s: Sys, hist: History, n: Counts, p: nat, k: nat, r: string, i: nat, x: nat)
    requires JustJoined(s, hist, n, r) && Skips(s, hist, p, k, r, i, x) && !s.passes[p].stage.Check?
    ensures k > 0 && |s.passes[p].todo| > 1 && s.passes[p].todo[0].room != r
  {
    hide LinearAt, Invariants.Inv, RowsKnown, CurrentState.RowsAgree, Waiting, RoomStands, CipherOf;
    HistoryItem(hist, s.user, s.passes[p].todo[k]);
  }

  ghost predicate StaysCaughtUp(s: Sys, hist: History, n: Counts, r: string)
  {
    forall states: seq<Sys>, actions: seq<Action>, ns: seq<Counts>, p: nat, a: nat, b: nat |
        TameRun(states, actions, hist, ns) && states[0] == s && ns[0] == n
        && WholePass(states, actions, p, a, b) && r in ns[a] && HasGroup(states[a].engine, r) ::
      CaughtUpTo(states[b], hist, r, ns[a][r])
  }

  lemma OutShrinks(s: Sys, s': Sys, p: nat)
    requires OnlyInbound(s, s') && s'.passes == s.passes - {p} && s'.missed == s.missed
    ensures Out(s') <= Out(s) && s'.user == s.user
  {
    hide InHand;
    HandsShrink(s.passes, p);
  }

  lemma MissableNotCaughtUp(s: Sys, s': Sys, hist: History, n: Counts, r: string, i: nat)
    requires Linear(hist, s.user) && Missable(s, hist, n, r, i) && Lost(s'.db, s'.engine, hist, r, i)
    requires Out(s') <= Out(s) && s'.user == s.user
    ensures !CaughtUpTo(s', hist, r, n[r])
  {
    hide LinearAt, Out, Lost, CaughtUpTo;
    if hist.rooms[r][i].ty == Encrypted {
      TextThere(hist, s.user, r, i);
    }
    LostIsNotCaughtUp(s', hist, r, n[r], i);
  }

  lemma TextThere(hist: History, user: string, r: string, i: nat)
    requires Linear(hist, user) && r in hist.rooms && i < |hist.rooms[r]| && hist.rooms[r][i].ty == Encrypted
    ensures CipherOf(hist.rooms[r][i]).text.Some?
  {
    assert LinearAt(hist.rooms[r], i, r, user);
  }

  /** The run in which the device fails to catch up: the skipping pass to its end, and
      the next one. */
  lemma SkippedPassFallsBehind(s: Sys, hist: History, n: Counts, p: nat, k: nat, r: string, i: nat, x: nat)
    requires JustJoined(s, hist, n, r) && Skips(s, hist, p, k, r, i, x)
    ensures !StaysCaughtUp(s, hist, n, r)
  {
    hide Linear, Invariants.Inv, RowsKnown, CurrentState.RowsAgree, Lost, Leads, BeginsOnceAt, Skips, TodoKnown,
        OnlyInbound, Out, Unopened, SinceJoin, CaughtUpTo, RoomStands, LeavesBehind, TameRun, WholePass;
    SkipsMissable(s, hist, n, p, k, r, i, x);
    var actions, s', a := SkippedIsLost(s, hist, n, p, k, r, i, x);
    OutShrinks(s, s', p);
    if Lost(s'.db, s'.engine, hist, r, i) {
      MissableNotCaughtUp(s, s', hist, n, r, i);
    } else {
      MissableNotCaughtUp(s, s', hist, n, r, x);
    }
    var states := LeadsIsRun(s, actions, s');
    ShowsBehind(states, actions, hist, n, r, p, a);
  }

  lemma SkipsMissable(s: Sys, hist: History, n: Counts, p: nat, k: nat, r: string, i: nat, x: nat)
    requires JustJoined(s, hist, n, r) && Skips(s, hist, p, k, r, i, x)
    ensures p in s.passes && Missable(s, hist, n, r, i) && Missable(s, hist, n, r, x)
  {
    hide JustJoined, Missable, LeavesBehind, Waiting, Linear;
    SkipsLeavesBehind(s, hist, n, p, k, r, i, x);
  }

  lemma ShowsBehind(states: seq<Sys>, actions: seq<Action>, hist: History, n: Counts, r: string, p: nat, a: nat)
    requires IsRun(states, actions) && JustJoined(states[0], hist, n, r) && BeginsOnceAt(actions, p, a)
    requires p !in states[|actions|].passes && !CaughtUpTo(states[|actions|], hist, r, n[r])
    ensures !StaysCaughtUp(states[0], hist, n, r)
  {
    hide Linear, Invariants.Inv, RowsKnown, CurrentState.RowsAgree, CaughtUpTo, RoomStands, TodoKnown, Do, Enabled,
        TameRun, WholePass;
    var ns := Same(n, |states|);
    TameAlone(states, actions, hist, n, p, a);
    HeldAlong(states, actions, a, r);
    assert ns[a] == n && ns[0] == n;
  }

  /** The step joins room `r`, not held until then, at the epoch of the commit that
      added this device. */
  ghost predicate JoinsAnew(s: Sys, a: Action, hist: History, r: string)
  {
    && Enabled(s, a) && a.LoopJoin? && r in hist.rooms && r in hist.joinAt
    && Runs.Acquires(s, a, r) && !HasGroup(s.engine, r)
    && JoiningAt(s, a.p, true)
    && ToDeviceOf(s.loops[a.p].resp)[s.loops[a.p].i].welcome.value.epoch == hist.joinAt[r]
  }

  /** What the step leaves as it was. */
  lemma JoinEffect(s: Sys, a: Action, hist: History, r: string)
    requires JoinsAnew(s, a, hist, r) && s.engine.device.user == s.user
    ensures var s', g := Do(s, a), Group(hist.joinAt[r], 0, {});
            && OnlyEngine(s, s') && Out(s') == Out(s)
            && s'.engine.device == WithGroup(s.engine.device, r, g)
  {
    hide InHand, Do, Enabled;
    Frames.JoinStepIs(s, a.p, a.accept, a.put);
  }

  lemma JoinWaits(s: Sys, a: Action, hist: History, r: string)
    requires JoinsAnew(s, a, hist, r) && s.engine.device.user == s.user
    ensures forall q, i: nat :: Waiting(Do(s, a), hist, q, i) <==> Waiting(s, hist, q, i)
  {
    hide Do, Enabled, Out, Overlap.Pending, Important, JoinsAnew;
    JoinEnabledNow(s, a, hist, r);
    JoinEffect(s, a, hist, r);
    JoinsAt(s, a, hist, r);
    forall q, i: nat ensures Waiting(Do(s, a), hist, q, i) <==> Waiting(s, hist, q, i) {
      assert q in hist.joinAt ==> EpochIn(Do(s, a).engine, q, hist.joinAt[q]) == EpochIn(s.engine, q, hist.joinAt[q]);
    }
  }

  lemma JoinsAt(s: Sys, a: Action, hist: History, r: string)
    requires JoinsAnew(s, a, hist, r)
    ensures r in hist.rooms && r in hist.joinAt && !HasGroup(s.engine, r)
  {
    hide Enabled, HasGroup;
  }

  lemma JoinedRoomStands(s: Sys, a: Action, hist: History, n: Counts, r: string)
    requires Overlapping(s, hist, n) && JoinsAnew(s, a, hist, r)
    ensures RoomStands(Do(s, a), hist, n, r)
  {
    hide Do, Enabled, Out, RowsStand, EpochStands, Linear, RoomsStand, PassesStand, RowsKnown, OriginsApart, JoinsAnew;
    JoinEffect(s, a, hist, r);
    JoinsAt(s, a, hist, r);
    RoomOf(s, hist, n, r);
  }

  lemma JoinedJustNow(s: Sys, a: Action, hist: History, n: Counts, r: string)
    requires Ready(s, hist, n) && JoinsAnew(s, a, hist, r)
    ensures JustJoined(Do(s, a), hist, n, r)
  {
    hide Do, Enabled, Out, LinearAt, RoomStands, RoomsStand, RowsKnown, OriginsApart, Invariants.Inv, TodoKnown,
        TodoComplete, Worked, CurrentState.RowsAgree, JoinsAnew, PassesStand;
    JoinEffect(s, a, hist, r);
    JoinsAt(s, a, hist, r);
    JoinedRoomStands(s, a, hist, n, r);
    InvAfter(s, a, hist, r);
    AgreeOf(s);
    forall p | p in s.passes
      ensures s.passes[p].todo != [] && TodoKnown(hist, s.user, s.passes[p].todo)
      ensures !s.passes[p].stage.Check? ==> s.passes[p].todo[0].room != r
    {
      PassItem(s, hist, n, p);
    }
  }

  lemma InvAfter(s: Sys, a: Action, hist: History, r: string)
    requires Invariants.Inv(s) && JoinsAnew(s, a, hist, r)
    ensures Invariants.Inv(Do(s, a))
  {
    hide Invariants.Inv, Do, Enabled;
    Steps.StepKeeps(s, a);
  }

  lemma SomeSkip(s: Sys, hist: History, r: string) returns (p: nat, k: nat, i: nat, x: nat)
    requires !NoneSkipped(s, hist, r)
    ensures Skips(s, hist, p, k, r, i, x)
  {
    hide Overlap.Pending, Important, InFront;
    p, k :| p in s.passes && k < |s.passes[p].todo| && s.passes[p].todo[k].id in hist.at
        && hist.at[s.passes[p].todo[k].id].room == r && !NoneMissing(s, hist, s.passes[p].todo, k);
    x := hist.at[s.passes[p].todo[k].id].i;
    i :| r in hist.rooms && i < |hist.rooms[r]| && Waiting(s, hist, r, i) && Behind(hist.rooms[r], i, x)
        && !InFront(s.passes[p].todo, k, hist.rooms[r][i].eventId);
  }

  lemma JoinInTimeIsTame(s: Sys, a: Action, hist: History, n: Counts, r: string)
    requires Linear(hist, s.user) && n.Keys == hist.rooms.Keys && s.engine.device.user == s.user
    requires JoinsAnew(s, a, hist, r) && NoneSkipped(s, hist, r)
    ensures Tame(s, a, hist, n, n)
  {
    hide Linear, NoneSkipped;
  }

  lemma InTimeStaysCaughtUp(s: Sys, a: Action, hist: History, n: Counts, r: string)
    requires Ready(s, hist, n) && JoinsAnew(s, a, hist, r) && NoneSkipped(s, hist, r)
    ensures StaysCaughtUp(Do(s, a), hist, n, r)
  {
    hide Overlapping, Linear, Do, Enabled, Invariants.Inv, NoneSkipped, CaughtUpTo, Tame, JoinsAnew;
    ShapeOf(s, hist, n);
    UserOf(s, hist, n);
    JoinsAt(s, a, hist, r);
    JoinInTimeIsTame(s, a, hist, n, r);
    JoinEnabledNow(s, a, hist, r);
    StepOv(s, a, hist, n, n);
    InvAfter(s, a, hist, r);
    var s' := Do(s, a);
    forall states: seq<Sys>, actions: seq<Action>, ns: seq<Counts>, p: nat, x: nat, y: nat |
        TameRun(states, actions, hist, ns) && states[0] == s' && ns[0] == n
        && WholePass(states, actions, p, x, y) && r in ns[x] && HasGroup(states[x].engine, r)
      ensures CaughtUpTo(states[y], hist, r, ns[x][r])
    {
      EveryWholePassCatchesUp(states, actions, hist, ns, p, x, y, r);
    }
  }

  lemma JoinEnabledNow(s: Sys, a: Action, hist: History, r: string)
    requires JoinsAnew(s, a, hist, r)
    ensures Enabled(s, a)
  {
    hide Enabled;
  }

  lemma UserOf(s: Sys, hist: History, n: Counts)
    requires Overlapping(s, hist, n)
    ensures s.engine.device.user == s.user
  {
    hide Linear, RoomsStand, PassesStand, RowsKnown, OriginsApart;
  }

  /** Joining a room leaves every pass of every tame continuation able to catch up
      with it if and only if, at that moment, no pass has an event of the room ahead
      that would leave behind one it has skipped. */
  lemma JoinIsHarmlessIff(s: Sys, a: Action, hist: History, n: Counts, r: string)
    requires Ready(s, hist, n) && JoinsAnew(s, a, hist, r)
    ensures Enabled(s, a) && (StaysCaughtUp(Do(s, a), hist, n, r) <==> NoneSkipped(s, hist, r))
  {
    hide Ready, Do, Enabled, NoneSkipped, StaysCaughtUp, JoinsAnew, JustJoined, Skips;
    JoinEnabledNow(s, a, hist, r);
    if NoneSkipped(s, hist, r) {
      InTimeStaysCaughtUp(s, a, hist, n, r);
    } else {
      var p, k, i, x := SomeSkip(s, hist, r);
      JoinedJustNow(s, a, hist, n, r);
      SkipsStill(s, a, hist, n, r, p, k, i, x);
      SkippedPassFallsBehind(Do(s, a), hist, n, p, k, r, i, x);
    }
  }

  lemma SkipsStill(s: Sys, a: Action, hist: History, n: Counts, r: string, p: nat, k: nat, i: nat, x: nat)
    requires Ready(s, hist, n) && JoinsAnew(s, a, hist, r) && Skips(s, hist, p, k, r, i, x)
    ensures Skips(Do(s, a), hist, p, k, r, i, x)
  {
    hide Overlapping, Do, Enabled, JoinsAnew, Waiting, Behind, InFront, Invariants.Inv, Out;
    UserOf(s, hist, n);
    JoinEffect(s, a, hist, r);
    JoinWaits(s, a, hist, r);
  }
}
