/** Current room state as a function of the log: every slot holds a deepest
    logged event, replays and reorderings do not matter without depth ties, and
    with ties exactly the last applied of the deepest wins. */
module CurrentState {
  import opened Base
  import opened Order
  import opened Events
  import opened Tables

  /** Every event the server ever assigned an id to. An id is a content hash, so
      it determines the event. */
  type Universe = map<string, Event>

  ghost predicate WellFormed(u: Universe)
  {
    forall id | id in u :: u[id].eventId == id && Agrees(NewRow(u[id]))
  }

  ghost predicate Drawn(u: Universe, evs: seq<Event>)
  {
    forall i | 0 <= i < |evs| :: evs[i].eventId in u && u[evs[i].eventId] == evs[i]
  }

  /** A row's promoted columns are those of its payload. */
  ghost predicate RowsAgree(db: Db)
  {
    forall id | id in db.events :: db.events[id].ev.eventId == id && Agrees(db.events[id])
  }

  /** A logged state event is the server's event of that id. */
  ghost predicate LogGenuine(db: Db, u: Universe)
  {
    forall id | id in db.events && ((id in u && u[id].stateKey.Some?) || db.events[id].ev.stateKey.Some?) ::
      id in u && db.events[id].ev == u[id]
  }

  /** A state event of the slot's own room, type and key. */
  predicate Targets(ev: Event, k: StateKey)
  {
    ev.roomId == k.room && ev.ty == k.ty && ev.stateKey == Some(k.key)
  }

  ghost predicate Holds(db: Db, k: StateKey, id: string)
  {
    id in db.events && Targets(db.events[id].ev, k)
  }

  /** Each slot points at a deepest logged event of its room, type and key. */
  ghost predicate StateIsArgmax(db: Db)
  {
    && (forall k | k in db.roomState ::
          && Holds(db, k, db.roomState[k].eventId)
          && db.events[db.roomState[k].eventId].ev.depth == db.roomState[k].depth)
    && (forall k, id | Holds(db, k, id) ::
          k in db.roomState && db.events[id].ev.depth <= db.roomState[k].depth)
  }

  ghost predicate StoreInv(db: Db, u: Universe)
  {
    WellFormed(u) && RowsAgree(db) && LogGenuine(db, u) && StateIsArgmax(db)
  }

  // --- Every transaction keeps the invariant ---------------------------------

  lemma ApplyOneRows(db: Db, u: Universe, ev: Event)
    requires StoreInv(db, u) && Drawn(u, [ev])
    ensures Agrees(NewRow(ev)) && RowsAgree(ApplyOne(db, ev)) && LogGenuine(ApplyOne(db, ev), u)
    ensures ev.stateKey.Some? ==> ApplyOne(db, ev).events[ev.eventId].ev == ev
  {
    hide Agrees, StateIsArgmax, FoldState;
    assert [ev][0] == ev && Agrees(NewRow(ev));
  }

  lemma ApplyOneSlots(db: Db, u: Universe, ev: Event)
    requires StoreInv(db, u) && RowsAgree(ApplyOne(db, ev))
    requires ev.stateKey.Some? ==> ApplyOne(db, ev).events[ev.eventId].ev == ev
    ensures StateIsArgmax(ApplyOne(db, ev))
  {
    hide Agrees, LogGenuine, WellFormed;
    var db' := ApplyOne(db, ev);
    forall k, id | Holds(db', k, id)
      ensures k in db'.roomState && db'.events[id].ev.depth <= db'.roomState[k].depth
    {
      assert Holds(db, k, id) || id == ev.eventId;
    }
    forall k | k in db'.roomState
      ensures Holds(db', k, db'.roomState[k].eventId)
      ensures db'.events[db'.roomState[k].eventId].ev.depth == db'.roomState[k].depth
    {
      assert k in db.roomState ==> Holds(db, k, db.roomState[k].eventId);
    }
  }

  lemma ApplyOneKeeps(db: Db, u: Universe, ev: Event)
    requires StoreInv(db, u) && Drawn(u, [ev])
    ensures StoreInv(ApplyOne(db, ev), u)
    ensures forall k | k in db.roomState ::
              k in ApplyOne(db, ev).roomState && db.roomState[k].depth <= ApplyOne(db, ev).roomState[k].depth
  {
    hide Agrees, RowsAgree, LogGenuine, StateIsArgmax, InsertEvent, WellFormed;
    ApplyOneRows(db, u, ev);
    ApplyOneSlots(db, u, ev);
  }

  lemma {:induction false} ApplyAllKeeps(db: Db, u: Universe, evs: seq<Event>)
    requires StoreInv(db, u) && Drawn(u, evs)
    ensures StoreInv(ApplyAll(db, evs), u)
    ensures forall k | k in db.roomState ::
              k in ApplyAll(db, evs).roomState && db.roomState[k].depth <= ApplyAll(db, evs).roomState[k].depth
  {
    if evs != [] {
      var n := |evs| - 1;
      ApplyAllKeeps(db, u, evs[..n]);
      ApplyOneKeeps(ApplyAll(db, evs[..n]), u, evs[n]);
    }
  }

  lemma QueueSendKeeps(db: Db, u: Universe, txn: string, echo: string, room: string, sender: string, body: string,
      ts: int)
    requires StoreInv(db, u) && echo !in db.events && echo !in u
    ensures StoreInv(QueueSend(db, txn, echo, room, sender, body, ts), u)
  {
    var db' := QueueSend(db, txn, echo, room, sender, body, ts);
    forall k, id | Holds(db', k, id) ensures Holds(db, k, id) {
    }
    forall k, id | Holds(db, k, id) ensures Holds(db', k, id) {
    }
  }

  /** An echo is a message of ours under an id no server uses, and the id it is
      promoted to belongs to no state event. */
  ghost predicate Resolvable(db: Db, u: Universe, txn: string, id: string)
  {
    && (txn in db.pending && db.pending[txn].echo in db.events ==>
          db.events[db.pending[txn].echo].ev.stateKey.None?)
    && (id in u ==> u[id].stateKey.None?)
  }

  lemma StateRowsKept(db: Db, db': Db, u: Universe)
    requires StoreInv(db, u) && RowsAgree(db') && LogGenuine(db', u)
    requires db'.roomState == db.roomState
    requires forall id | id in db.events && db.events[id].ev.stateKey.Some? ::
             id in db'.events && db'.events[id].ev == db.events[id].ev
    requires forall id | id in db'.events && db'.events[id].ev.stateKey.Some? ::
             id in db.events && db'.events[id].ev == db.events[id].ev
    ensures StoreInv(db', u)
  {
    forall k, id ensures Holds(db', k, id) <==> Holds(db, k, id) {
    }
  }

  lemma PromotionAgrees(r: Row, id: string)
    requires Agrees(r)
    ensures Agrees(Promote(r, id)) && Promote(r, id).ev.eventId == id
  {
  }

  lemma PromotionKeeps(db: Db, u: Universe, txn: string, id: string)
    requires StoreInv(db, u) && Resolvable(db, u, txn, id)
    requires txn in db.pending && id !in db.events && db.pending[txn].echo in db.events
    ensures StoreInv(ResolveSend(db, txn, id), u)
  {
    var db' := ResolveSend(db, txn, id);
    PromotionAgrees(db.events[db.pending[txn].echo], id);
    assert RowsAgree(db');
    StateRowsKept(db, db', u);
  }

  lemma ResolveSendKeeps(db: Db, u: Universe, txn: string, id: string)
    requires StoreInv(db, u) && Resolvable(db, u, txn, id)
    ensures StoreInv(ResolveSend(db, txn, id), u)
  {
    if txn in db.pending && id !in db.events && db.pending[txn].echo in db.events {
      PromotionKeeps(db, u, txn, id);
    } else if txn in db.pending {
      var db' := ResolveSend(db, txn, id);
      assert forall e | e in db'.events :: e in db.events && db'.events[e].ev == db.events[e].ev;
      StateRowsKept(db, db', u);
    }
  }

  /** Transactions that only touch a row's send or decryption columns. */
  lemma SameEventsKeeps(db: Db, db': Db, u: Universe)
    requires StoreInv(db, u)
    requires db'.roomState == db.roomState && db'.events.Keys == db.events.Keys
    requires forall id | id in db.events :: db'.events[id].ev == db.events[id].ev
    ensures StoreInv(db', u)
  {
    forall k, id ensures Holds(db', k, id) <==> Holds(db, k, id) {
    }
  }

  /** Reading a stored row back never fails, and the cursor it hands out is the
      depth the queries filter on. */
  lemma RowReadsBack(db: Db, id: string)
    requires RowsAgree(db) && id in db.events
    ensures ReadRow(db.events[id]) == Ok(ReadBack(db.events[id]))
    ensures ReadBack(db.events[id]).event.eventId == id
    ensures ReadBack(db.events[id]).event.depth == db.events[id].ev.depth
  {
  }

  // --- The room list, recomputed from the log ---------------------------------

  ghost predicate Deepest(db: Db, k: StateKey, id: string)
  {
    Holds(db, k, id) && forall other | Holds(db, k, other) :: db.events[other].ev.depth <= db.events[id].ev.depth
  }

  /** The list entry of a room is what scanning its whole log would give: a room
      is listed when it has any state event, it is encrypted when it has any
      encryption event under any key, and name and topic come from a deepest
      event, absent only if there is none. */
  lemma RoomListMatchesLog(db: Db, u: Universe, room: string)
    requires StoreInv(db, u)
    ensures room in Rooms(db) <==> exists k, id :: Holds(db, k, id) && k.room == room
    ensures Summarise(db, room).encrypted <==> exists k, id :: Holds(db, k, id) && k.room == room && k.ty == Encryption
    ensures var k := StateKey(room, Name, "");
            if exists id :: Holds(db, k, id)
            then exists id :: Deepest(db, k, id) && Summarise(db, room).name == db.events[id].ev.payload.content.name
            else Summarise(db, room).name == None
    ensures var k := StateKey(room, Topic, "");
            if exists id :: Holds(db, k, id)
            then exists id :: Deepest(db, k, id) && Summarise(db, room).topic == db.events[id].ev.payload.content.topic
            else Summarise(db, room).topic == None
  {
    hide WellFormed, RowsAgree, LogGenuine, LastActivity;
    forall k | k in db.roomState ensures Deepest(db, k, db.roomState[k].eventId) {
    }
    if IsRoomEncrypted(db, room) {
      var k :| k in db.roomState && k.room == room && k.ty == Encryption;
      assert Holds(db, k, db.roomState[k].eventId);
    }
    if room in Rooms(db) {
      var k :| k in db.roomState && k.room == room;
      assert Holds(db, k, db.roomState[k].eventId);
    }
  }

  // --- Order and replay -------------------------------------------------------

  function ApplyBatches(db: Db, batches: seq<seq<Event>>): Db
  {
    if batches == [] then db
    else ApplyAll(ApplyBatches(db, batches[..|batches| - 1]), batches[|batches| - 1])
  }

  function Flatten(batches: seq<seq<Event>>): seq<Event>
  {
    if batches == [] then [] else Flatten(batches[..|batches| - 1]) + batches[|batches| - 1]
  }

  lemma {:induction false} ApplyAllAppends(db: Db, a: seq<Event>, b: seq<Event>)
    ensures ApplyAll(db, a + b) == ApplyAll(ApplyAll(db, a), b)
    decreases |b|
  {
    if b == [] {
      assert a + b == a;
    } else {
      var n := |b| - 1;
      ApplyAllAppends(db, a, b[..n]);
      assert (a + b)[..|a + b| - 1] == a + b[..n];
    }
  }

  /** How a history is cut into batches does not matter. */
  lemma {:induction false} BatchingIrrelevant(db: Db, batches: seq<seq<Event>>)
    ensures ApplyBatches(db, batches) == ApplyAll(db, Flatten(batches))
  {
    if batches != [] {
      var n := |batches| - 1;
      BatchingIrrelevant(db, batches[..n]);
      ApplyAllAppends(db, Flatten(batches[..n]), batches[n]);
    }
  }

  ghost predicate Mentions(evs: seq<Event>, id: string)
  {
    exists i :: 0 <= i < |evs| && evs[i].eventId == id
  }

  lemma {:induction false} LogAfter(db: Db, u: Universe, evs: seq<Event>)
    requires Drawn(u, evs)
    ensures var log := ApplyAll(db, evs).events;
            && (forall id :: id in log <==> id in db.events || Mentions(evs, id))
            && (forall id | id in log :: log[id] == if id in db.events then db.events[id] else NewRow(u[id]))
    ensures ApplyAll(db, evs).pending == db.pending && ApplyAll(db, evs).token == db.token
  {
    if evs != [] {
      var n := |evs| - 1;
      var front := evs[..n];
      LogAfter(db, u, front);
      forall id ensures Mentions(evs, id) <==> Mentions(front, id) || id == evs[n].eventId {
        if Mentions(front, id) {
          var i :| 0 <= i < |front| && front[i].eventId == id;
          assert evs[i].eventId == id;
        }
        if i :| 0 <= i < |evs| && evs[i].eventId == id {
          assert i < n ==> front[i].eventId == id;
        }
      }
    }
  }

  /** No two state events of one room, type and key share a depth. */
  ghost predicate NoTies(db: Db)
  {
    forall k, a, b | Holds(db, k, a) && Holds(db, k, b) && db.events[a].ev.depth == db.events[b].ev.depth :: a == b
  }

  lemma ArgmaxDetermined(a: Db, b: Db)
    requires StateIsArgmax(a) && StateIsArgmax(b) && a.events == b.events && NoTies(a)
    ensures a.roomState == b.roomState
  {
    forall k ensures k in a.roomState <==> k in b.roomState {
      assert k in a.roomState ==> Holds(b, k, a.roomState[k].eventId);
      assert k in b.roomState ==> Holds(a, k, b.roomState[k].eventId);
    }
    forall k | k in a.roomState ensures a.roomState[k] == b.roomState[k] {
      assert Holds(b, k, a.roomState[k].eventId) && Holds(a, k, b.roomState[k].eventId);
    }
  }

  ghost predicate SameEvents(a: seq<Event>, b: seq<Event>)
  {
    forall id :: Mentions(a, id) <==> Mentions(b, id)
  }

  lemma SameLog(db: Db, u: Universe, a: seq<Event>, b: seq<Event>)
    requires Drawn(u, a) && Drawn(u, b) && SameEvents(a, b)
    ensures ApplyAll(db, a).events == ApplyAll(db, b).events
  {
    LogAfter(db, u, a);
    LogAfter(db, u, b);
  }

  // --- Ties ------------------------------------------------------------------

  function Slot(rs: map<StateKey, StateRow>, k: StateKey): Option<StateRow>
  {
    if k in rs then Some(rs[k]) else None
  }

  /** The later of two candidates for a slot, the second being applied last. */
  function Later(a: Option<StateRow>, b: Option<StateRow>): Option<StateRow>
  {
    if b.None? then a
    else if a.None? || b.value.depth >= a.value.depth then b
    else a
  }

  function Candidate(ev: Event, k: StateKey): Option<StateRow>
  {
    if Targets(ev, k) then Some(StateRow(ev.eventId, ev.depth)) else None
  }

  /** The batch's candidate for a slot. */
  function Winner(evs: seq<Event>, k: StateKey): Option<StateRow>
  {
    if evs == [] then None
    else Later(Winner(evs[..|evs| - 1], k), Candidate(evs[|evs| - 1], k))
  }

  ghost predicate LastDeepest(evs: seq<Event>, k: StateKey, i: int)
  {
    && 0 <= i < |evs| && Targets(evs[i], k)
    && forall j | 0 <= j < |evs| && Targets(evs[j], k) :: if j <= i then evs[j].depth <= evs[i].depth
         else evs[j].depth < evs[i].depth
  }

  /** It is the last of the batch's deepest events for that slot. */
  lemma {:induction false} WinnerIsLastDeepest(evs: seq<Event>, k: StateKey) returns (i: int)
    ensures Winner(evs, k).None? ==> forall j | 0 <= j < |evs| :: !Targets(evs[j], k)
    ensures Winner(evs, k).Some? ==>
              LastDeepest(evs, k, i) && Winner(evs, k).value == StateRow(evs[i].eventId, evs[i].depth)
  {
    i := 0;
    if evs != [] {
      var n := |evs| - 1;
      var front := evs[..n];
      i := WinnerIsLastDeepest(front, k);
      assert forall j | 0 <= j < n :: evs[j] == front[j];
      if Targets(evs[n], k) && Winner(evs, k) == Candidate(evs[n], k) {
        i := n;
      }
    }
  }

  /** Ties or not, a slot after a batch is the incumbent or the batch's winner,
      whichever is deeper, and the batch's on a tie. */
  lemma {:induction false} FoldTakesWinner(db: Db, evs: seq<Event>, k: StateKey)
    ensures Slot(ApplyAll(db, evs).roomState, k) == Later(Slot(db.roomState, k), Winner(evs, k))
  {
    if evs != [] {
      FoldTakesWinner(db, evs[..|evs| - 1], k);
    }
  }

  lemma SlotsEqual(a: map<StateKey, StateRow>, b: map<StateKey, StateRow>)
    requires forall k :: Slot(a, k) == Slot(b, k)
    ensures a == b
  {
    forall k ensures k in a <==> k in b {
      assert Slot(a, k) == Slot(b, k);
    }
    forall k | k in a ensures a[k] == b[k] {
      assert Slot(a, k) == Slot(b, k);
    }
  }

  /** Two stores' slots agree after their batches if the batches' events are the
      same and no slot is tied at the top. */
  lemma WinnersAgree(db: Db, u: Universe, a: seq<Event>, b: seq<Event>, k: StateKey)
    requires Drawn(u, a) && Drawn(u, b) && SameEvents(a, b) && NoTieAtTop(db, b)
    ensures Later(Slot(db.roomState, k), Winner(a, k)) == Later(Slot(db.roomState, k), Winner(b, k))
  {
    assert SameEvents(b, a);
    hide LastDeepest, TopOf, Winner, Drawn, SameEvents, Targets, NoTieAtTop;
    var i := WinnerIsLastDeepest(a, k);
    var j := WinnerIsLastDeepest(b, k);
    if Winner(a, k).Some? {
      var n := TopElsewhere(u, a, b, k, i);
      LastIsTop(b, k, j);
      NoTieBetween(db, b, k, n, j);
    } else if Winner(b, k).Some? {
      var n := TopElsewhere(u, b, a, k, j);
      assert false;
    }
  }

  /** Two events on top of one slot are the same, or the incumbent is above both. */
  lemma NoTieBetween(db: Db, evs: seq<Event>, k: StateKey, i: int, j: int)
    requires NoTieAtTop(db, evs) && TopOf(evs, k, i) && TopOf(evs, k, j)
    ensures evs[i].depth == evs[j].depth
    ensures evs[i].eventId == evs[j].eventId || (k in db.roomState && db.roomState[k].depth > evs[i].depth)
  {
    BothTop(evs, k, i, j);
  }

  lemma LastIsTop(evs: seq<Event>, k: StateKey, i: int)
    requires LastDeepest(evs, k, i)
    ensures TopOf(evs, k, i)
  {
  }

  lemma BothTop(evs: seq<Event>, k: StateKey, i: int, j: int)
    requires TopOf(evs, k, i) && TopOf(evs, k, j)
    ensures evs[i].depth == evs[j].depth
  {
  }

  /** The winner of one batch is among the deepest of another with the same events. */
  lemma TopElsewhere(u: Universe, a: seq<Event>, b: seq<Event>, k: StateKey, i: int) returns (n: int)
    requires Drawn(u, a) && Drawn(u, b) && SameEvents(a, b) && LastDeepest(a, k, i)
    ensures TopOf(b, k, n) && b[n] == a[i] && Targets(b[n], k)
  {
    SameEvent(u, a, b, i);
    n :| 0 <= n < |b| && b[n] == a[i];
    forall m: nat | m < |b| && Targets(b[m], k) ensures b[m].depth <= b[n].depth {
      SameEvent(u, b, a, m);
      var l :| 0 <= l < |a| && a[l] == b[m];
    }
  }

  ghost predicate Occurs(evs: seq<Event>, ev: Event)
  {
    exists n :: 0 <= n < |evs| && evs[n] == ev
  }

  lemma SameEvent(u: Universe, a: seq<Event>, b: seq<Event>, n: nat)
    requires Drawn(u, a) && Drawn(u, b) && SameEvents(a, b) && n < |a|
    ensures Occurs(b, a[n])
  {
    assert Mentions(a, a[n].eventId);
    var m :| 0 <= m < |b| && b[m].eventId == a[n].eventId;
    assert b[m] == a[n];
  }

  ghost predicate TopOf(evs: seq<Event>, k: StateKey, i: int)
  {
    && 0 <= i < |evs| && Targets(evs[i], k)
    && forall j | 0 <= j < |evs| && Targets(evs[j], k) :: evs[j].depth <= evs[i].depth
  }

  /** Of the deepest events for a slot, where they reach its incumbent, there is
      only one. */
  ghost predicate NoTieAtTop(db: Db, evs: seq<Event>)
  {
    forall k, i, j | TopOf(evs, k, i) && TopOf(evs, k, j) ::
      evs[i].eventId == evs[j].eventId || (k in db.roomState && db.roomState[k].depth > evs[i].depth)
  }

  lemma AppliedLast(db: Db, evs: seq<Event>, k: StateKey, i: nat)
    requires TopOf(evs, k, i) && (k in db.roomState ==> db.roomState[k].depth <= evs[i].depth)
    ensures Slot(ApplyAll(db, evs + [evs[i]]).roomState, k) == Some(StateRow(evs[i].eventId, evs[i].depth))
  {
    var all := evs + [evs[i]];
    assert all[..|all| - 1] == evs;
    FoldTakesWinner(db, evs, k);
    var n := WinnerIsLastDeepest(evs, k);
  }

  lemma RepeatedIsSame(u: Universe, evs: seq<Event>, i: nat)
    requires Drawn(u, evs) && i < |evs|
    ensures Drawn(u, evs + [evs[i]]) && SameEvents(evs + [evs[i]], evs)
  {
    var all := evs + [evs[i]];
    forall id ensures Mentions(all, id) <==> Mentions(evs, id) {
      if Mentions(evs, id) {
        var n :| 0 <= n < |evs| && evs[n].eventId == id;
        assert all[n].eventId == id;
      }
    }
  }

  lemma OneBatch(db: Db, evs: seq<Event>)
    ensures Flatten([evs]) == evs && ApplyBatches(db, [evs]) == ApplyAll(db, evs)
  {
    assert [evs][..0] == [] && Flatten([]) + evs == evs;
    assert ApplyBatches(db, []) == db;
  }

  ghost predicate OrderIrrelevant(db: Db, u: Universe, evs: seq<Event>)
  {
    forall bs: seq<seq<Event>> | Drawn(u, Flatten(bs)) && SameEvents(Flatten(bs), evs) ::
        ApplyBatches(db, bs) == ApplyAll(db, evs)
  }

  /** Ending on one or the other of two tied events makes a difference. */
  lemma TieMatters(db: Db, u: Universe, evs: seq<Event>, k: StateKey, i: nat, j: nat)
    requires Drawn(u, evs) && TopOf(evs, k, i) && TopOf(evs, k, j) && evs[i].eventId != evs[j].eventId
    requires k in db.roomState ==> db.roomState[k].depth <= evs[i].depth
    ensures !OrderIrrelevant(db, u, evs)
  {
    var a, b := evs + [evs[i]], evs + [evs[j]];
    BothTop(evs, k, i, j);
    AppliedLast(db, evs, k, i);
    AppliedLast(db, evs, k, j);
    hide Drawn, SameEvents, TopOf, ApplyAll, ApplyBatches, Flatten;
    RepeatedIsSame(u, evs, i);
    RepeatedIsSame(u, evs, j);
    OneBatch(db, a);
    OneBatch(db, b);
    assert ApplyBatches(db, [a]) != ApplyBatches(db, [b]);
  }

  /** Every permutation, re-batching and repetition of a set of events leaves the
      same store if and only if no slot is tied at its greatest depth. */
  lemma OrderIrrelevantIff(db: Db, u: Universe, evs: seq<Event>)
    requires StoreInv(db, u) && Drawn(u, evs)
    ensures OrderIrrelevant(db, u, evs) <==> NoTieAtTop(db, evs)
  {
    hide OrderIrrelevant, NoTieAtTop, TopOf, Drawn, StoreInv;
    if NoTieAtTop(db, evs) {
      UntiedIrrelevant(db, u, evs);
    } else {
      var k, i, j := TiedAtTop(db, evs);
      TieMatters(db, u, evs, k, i, j);
    }
  }

  lemma UntiedIrrelevant(db: Db, u: Universe, evs: seq<Event>)
    requires StoreInv(db, u) && Drawn(u, evs) && NoTieAtTop(db, evs)
    ensures OrderIrrelevant(db, u, evs)
  {
    hide ApplyAll, ApplyBatches, Flatten, SameEvents, StoreInv, NoTieAtTop, Drawn;
    forall bs: seq<seq<Event>> | Drawn(u, Flatten(bs)) && SameEvents(Flatten(bs), evs)
      ensures ApplyBatches(db, bs) == ApplyAll(db, evs)
    {
      BatchingIrrelevant(db, bs);
      SameStore(db, u, Flatten(bs), evs);
    }
  }

  lemma TiedAtTop(db: Db, evs: seq<Event>) returns (k: StateKey, i: nat, j: nat)
    requires !NoTieAtTop(db, evs)
    ensures TopOf(evs, k, i) && TopOf(evs, k, j) && evs[i].eventId != evs[j].eventId
    ensures k in db.roomState ==> db.roomState[k].depth <= evs[i].depth
  {
    hide Targets;
    k, i, j :| TopOf(evs, k, i) && TopOf(evs, k, j) && evs[i].eventId != evs[j].eventId
               && !(k in db.roomState && db.roomState[k].depth > evs[i].depth);
  }

  lemma SameStore(db: Db, u: Universe, a: seq<Event>, b: seq<Event>)
    requires Drawn(u, a) && Drawn(u, b) && SameEvents(a, b) && NoTieAtTop(db, b)
    ensures ApplyAll(db, a) == ApplyAll(db, b)
  {
    SameLog(db, u, a, b);
    LogAfter(db, u, a);
    LogAfter(db, u, b);
    forall k ensures Slot(ApplyAll(db, a).roomState, k) == Slot(ApplyAll(db, b).roomState, k) {
      FoldTakesWinner(db, a, k);
      FoldTakesWinner(db, b, k);
      WinnersAgree(db, u, a, b, k);
    }
    SlotsEqual(ApplyAll(db, a).roomState, ApplyAll(db, b).roomState);
  }

  /** Over a whole history a slot shows the last applied of its deepest events. */
  lemma SlotShowsLastDeepest(u: Universe, evs: seq<Event>, k: StateKey) returns (i: int)
    requires Drawn(u, evs)
    ensures var row := CurrentRow(ApplyAll(EMPTY_DB, evs), k);
            if row.Some? then LastDeepest(evs, k, i) && row.value.ev == evs[i]
            else forall j | 0 <= j < |evs| :: !Targets(evs[j], k)
  {
    i := WinnerIsLastDeepest(evs, k);
    FoldTakesWinner(EMPTY_DB, evs, k);
    LogAfter(EMPTY_DB, u, evs);
    if Winner(evs, k).Some? {
      assert Mentions(evs, evs[i].eventId);
    }
  }

  /** The room list over a whole history: name and topic are those of the last
      applied of the deepest name and topic events, and absent only if there is
      none. */
  lemma RoomListIsLastDeepest(u: Universe, evs: seq<Event>, room: string) returns (n: int, t: int)
    requires Drawn(u, evs)
    ensures var s := Summarise(ApplyAll(EMPTY_DB, evs), room);
            var name, topic := StateKey(room, Name, ""), StateKey(room, Topic, "");
            && (if exists j :: 0 <= j < |evs| && Targets(evs[j], name)
                then LastDeepest(evs, name, n) && s.name == evs[n].payload.content.name else s.name == None)
            && (if exists j :: 0 <= j < |evs| && Targets(evs[j], topic)
                then LastDeepest(evs, topic, t) && s.topic == evs[t].payload.content.topic else s.topic == None)
  {
    n := SlotShowsLastDeepest(u, evs, StateKey(room, Name, ""));
    t := SlotShowsLastDeepest(u, evs, StateKey(room, Topic, ""));
  }

  lemma {:induction false} Logged(db: Db, evs: seq<Event>)
    ensures forall i | 0 <= i < |evs| :: evs[i].eventId in ApplyAll(db, evs).events
    ensures forall id | id in db.events :: id in ApplyAll(db, evs).events
  {
    if evs != [] {
      Logged(db, evs[..|evs| - 1]);
      forall i | 0 <= i < |evs| ensures evs[i].eventId in ApplyAll(db, evs).events {
        assert i < |evs| - 1 ==> evs[i] == evs[..|evs| - 1][i];
      }
    }
  }

  lemma {:induction false} NothingNew(db: Db, evs: seq<Event>)
    requires forall i | 0 <= i < |evs| :: evs[i].eventId in db.events
    ensures ApplyAll(db, evs) == db.(roomState := ApplyAll(db, evs).roomState)
    ensures Inserted(db, evs) == 0
  {
    if evs != [] {
      NothingNew(db, evs[..|evs| - 1]);
    }
  }

  /** A batch that reports nothing inserted held nothing new. */
  lemma {:induction false} InsertedCountsNew(db: Db, evs: seq<Event>)
    ensures Inserted(db, evs) == 0 <==> forall i | 0 <= i < |evs| :: evs[i].eventId in db.events
  {
    if evs != [] {
      var n := |evs| - 1;
      InsertedCountsNew(db, evs[..n]);
      forall i | 0 <= i < |evs| ensures i < n ==> evs[i] == evs[..n][i] {
      }
      if Inserted(db, evs[..n]) == 0 {
        NothingNew(db, evs[..n]);
      } else {
        var i :| 0 <= i < n && evs[..n][i].eventId !in db.events;
        assert evs[i].eventId !in db.events;
      }
    }
  }

  /** Applying one batch twice in a row equals applying it once, with any ties
      and from any store. */
  lemma TwiceIsOnce(db: Db, evs: seq<Event>)
    ensures ApplyAll(ApplyAll(db, evs), evs) == ApplyAll(db, evs)
  {
    var once := ApplyAll(db, evs);
    Logged(db, evs);
    NothingNew(once, evs);
    forall k ensures Slot(ApplyAll(once, evs).roomState, k) == Slot(once.roomState, k) {
      FoldTakesWinner(db, evs, k);
      FoldTakesWinner(once, evs, k);
    }
    SlotsEqual(ApplyAll(once, evs).roomState, once.roomState);
  }

  /** When replaying logged events is harmless: each slot they target must be
      held by their own winner or by something strictly deeper. */
  ghost predicate NoTieToFlip(db: Db, evs: seq<Event>)
  {
    forall k | Winner(evs, k).Some? ::
      k in db.roomState && (db.roomState[k] == Winner(evs, k).value
        || db.roomState[k].depth > Winner(evs, k).value.depth)
  }

  lemma ReplayHarmlessIff(db: Db, evs: seq<Event>)
    requires forall i | 0 <= i < |evs| :: evs[i].eventId in db.events
    ensures ApplyAll(db, evs) == db <==> NoTieToFlip(db, evs)
  {
    NothingNew(db, evs);
    forall k ensures Slot(ApplyAll(db, evs).roomState, k) == Later(Slot(db.roomState, k), Winner(evs, k)) {
      FoldTakesWinner(db, evs, k);
    }
    if NoTieToFlip(db, evs) {
      SlotsEqual(ApplyAll(db, evs).roomState, db.roomState);
    } else {
      var k :| Winner(evs, k).Some? &&
               !(k in db.roomState && (db.roomState[k] == Winner(evs, k).value
                 || db.roomState[k].depth > Winner(evs, k).value.depth));
      assert Slot(ApplyAll(db, evs).roomState, k) != Slot(db.roomState, k);
    }
  }

  /** Without ties every replay is harmless. */
  lemma ReplayWithoutTies(db: Db, u: Universe, evs: seq<Event>)
    requires StoreInv(db, u) && NoTies(db) && Drawn(u, evs)
    requires forall i | 0 <= i < |evs| :: evs[i].eventId in db.events
    ensures ApplyAll(db, evs) == db
  {
    NothingNew(db, evs);
    ApplyAllKeeps(db, u, evs);
    ArgmaxDetermined(db, ApplyAll(db, evs));
  }

  lemma ApplySingle(db: Db, ev: Event)
    ensures ApplyAll(db, [ev]) == ApplyOne(db, ev)
  {
    assert [ev][..0] == [];
    assert ApplyAll(db, []) == db;
  }

  function NameEvent(id: string, name: string): Event
  {
    var c := EMPTY.(name := Some(name));
    Event(id, "!r", "@a", Name, Some(""), 0, 1,
          Wire(Some(id), Some("!r"), Some("@a"), Some(Name), Some(""), Some(0), Some(1), c, ""))
  }

  /** With a tie, replaying the older of two batches renames the room. */
  lemma ReplayFlipsTie()
    ensures var a, b := [NameEvent("$a", "one")], [NameEvent("$b", "two")];
            var db := ApplyAll(ApplyAll(EMPTY_DB, a), b);
            && Summarise(db, "!r").name == Some("two")
            && Inserted(db, a) == 0
            && Summarise(ApplyAll(db, a), "!r").name == Some("one")
  {
    var a, b := NameEvent("$a", "one"), NameEvent("$b", "two");
    assert "$a"[1] != "$b"[1];
    var db1 := ApplyOne(EMPTY_DB, a);
    var db2 := ApplyOne(db1, b);
    ApplySingle(EMPTY_DB, a);
    ApplySingle(db1, b);
    ApplySingle(db2, a);
    InsertedCountsNew(db2, [a]);
  }
}
