/** One round of the sync loop as a function, and why a round that stays silent
    has nothing to show. */
module Sync {
  import opened Base
  import opened Order
  import opened Mls
  import opened Events
  import opened T = Tables
  import opened CurrentState
  import opened Effects
  import opened Inbound
  import opened Flush

  /** A sync response: the timelines of the joined rooms, the to-device events
      if the block is present, and the opaque next token if there is one. */
  datatype Response = Response(rooms: seq<seq<Wire>>, toDevice: Option<seq<ToDevice>>, next: Option<string>)

  /** What the environment decides during the round. */
  datatype Env = Env(verdicts: seq<Verdict>, calls: seq<Call>, tries: seq<Try>)

  /** `refresh` is `None` when the round ends the loop with an error, else
      whether the observer is called. */
  datatype Round = Round(db: Db, engine: Engine, refresh: Option<bool>)

  function Batch(rooms: seq<seq<Wire>>): seq<Wire>
  {
    if rooms == [] then [] else rooms[0] + Batch(rooms[1..])
  }

  function HandleToDevice(e: Engine, mls: bool, resp: Response, vs: seq<Verdict>): (Engine, bool)
  {
    if mls && resp.toDevice.Some? then ApplyToDevice(e, resp.toDevice.value, vs) else (e, false)
  }

  function SaveToken(db: Db, resp: Response): Db
  {
    if resp.next.Some? then db.(token := resp.next) else db
  }

  function InboundPass(db: Db, e: Engine, mls: bool, user: string, calls: seq<Call>): Progress
  {
    if mls then ProcessPending(db, e, user, calls) else Progress(db, e, false, false)
  }

  function FlushStage(db: Db, e: Engine, mls: bool, changed: bool, env: Env): Round
  {
    var o := FlushPending(db, e, mls, env.tries);
    Round(o.db, o.engine, Some(changed || o.changed))
  }

  function DecryptStage(db: Db, e: Engine, mls: bool, user: string, changed: bool, env: Env): Round
  {
    var p := InboundPass(db, e, mls, user, env.calls);
    if p.stopped then Round(p.db, p.engine, None) else FlushStage(p.db, p.engine, mls, changed || p.changed, env)
  }

  function JoinStage(db: Db, e: Engine, mls: bool, user: string, changed: bool, resp: Response, env: Env): Round
  {
    var (e', joined) := HandleToDevice(e, mls, resp, env.verdicts);
    DecryptStage(SaveToken(db, resp), e', mls, user, changed || joined, env)
  }

  /** Fold, join, save the token, decrypt, flush. */
  function SyncRound(db: Db, e: Engine, mls: bool, user: string, resp: Response, env: Env): Round
  {
    var (folded, applied) := ApplyEvents(db, Batch(resp.rooms));
    if applied.Malformed? then Round(db, e, None)
    else JoinStage(folded, e, mls, user, applied.value > 0, resp, env)
  }

  /** Everything the user interface can read of a store. */
  ghost predicate SameReads(a: Db, b: Db)
  {
    && (forall room, limit: nat, before :: Page(a, room, limit, before) == Page(b, room, limit, before))
    && a.events == b.events
    && ListRooms(a) == ListRooms(b)
    && (forall k :: ReadState(a, k) == ReadState(b, k))
  }

  lemma PagesIgnoreToken(db: Db, token: Option<string>, room: string, limit: nat, before: Option<int>)
    ensures Page(db, room, limit, before) == Page(db.(token := token), room, limit, before)
  {
    assert PageRanks(db, room, before) == PageRanks(db.(token := token), room, before);
  }

  lemma SummaryIgnoresToken(db: Db, token: Option<string>, room: string)
    ensures Summarise(db, room) == Summarise(db.(token := token), room)
  {
  }

  lemma RoomRanksIgnoreToken(db: Db, token: Option<string>)
    ensures RoomRanks(db) == RoomRanks(db.(token := token))
  {
    assert Rooms(db) == Rooms(db.(token := token));
    forall room ensures LastActivity(db, room) == LastActivity(db.(token := token), room) {
    }
  }

  lemma RoomListIgnoresToken(db: Db, token: Option<string>)
    ensures ListRooms(db) == ListRooms(db.(token := token))
  {
    RoomRanksIgnoreToken(db, token);
    var ranks := Ordered(RoomRanks(db));
    forall i | 0 <= i < |ranks| ensures ListRooms(db)[i] == ListRooms(db.(token := token))[i] {
      SummaryIgnoresToken(db, token, ranks[i].id);
    }
  }

  lemma TokenIsNotRead(db: Db, token: Option<string>)
    ensures SameReads(db, db.(token := token))
  {
    forall room, limit: nat, before
      ensures Page(db, room, limit, before) == Page(db.(token := token), room, limit, before)
    {
      PagesIgnoreToken(db, token, room, limit, before);
    }
    RoomListIgnoresToken(db, token);
  }

  lemma QuietFlush(db: Db, e: Engine, mls: bool, changed: bool, env: Env)
    requires FlushStage(db, e, mls, changed, env).refresh == Some(false)
    ensures !changed && FlushStage(db, e, mls, changed, env).db == db
  {
    QueueIsDistinct(db);
    PassRemoves(db, e, mls, PendingSends(db), env.tries);
  }

  lemma QuietDecrypt(db: Db, e: Engine, mls: bool, user: string, changed: bool, env: Env)
    requires DecryptStage(db, e, mls, user, changed, env).refresh == Some(false)
    ensures !changed && DecryptStage(db, e, mls, user, changed, env).db == db
  {
    var p := InboundPass(db, e, mls, user, env.calls);
    QuietFlush(p.db, p.engine, mls, changed || p.changed, env);
    if mls {
      QuietPassChangesNothing(db, e, user, PendingMls(db), env.calls);
    }
  }

  lemma QuietJoin(db: Db, e: Engine, mls: bool, user: string, changed: bool, resp: Response, env: Env)
    requires JoinStage(db, e, mls, user, changed, resp, env).refresh == Some(false)
    ensures !changed && JoinStage(db, e, mls, user, changed, resp, env).db == SaveToken(db, resp)
  {
    var (e', joined) := HandleToDevice(e, mls, resp, env.verdicts);
    QuietDecrypt(SaveToken(db, resp), e', mls, user, changed || joined, env);
  }

  /** A silent round applied only events it already had, so what it does to the
      store is what replaying them does. */
  lemma SilentRoundOnlyReplays(db: Db, e: Engine, mls: bool, user: string, resp: Response, env: Env, evs: seq<Event>)
    requires ParseAll(Batch(resp.rooms)) == Ok(evs)
    requires SyncRound(db, e, mls, user, resp, env).refresh == Some(false)
    ensures forall i | 0 <= i < |evs| :: evs[i].eventId in db.events
    ensures SyncRound(db, e, mls, user, resp, env).db == SaveToken(ApplyAll(db, evs), resp)
  {
    QuietJoin(ApplyAll(db, evs), e, mls, user, Inserted(db, evs) > 0, resp, env);
    InsertedCountsNew(db, evs);
  }

  /** Some question of the inbound pass over this store fails. */
  ghost predicate QuestionFails(db: Db, mls: bool, env: Env)
  {
    mls && exists k: nat :: k < |PendingMls(db)| && !CallAt(env.calls, k).ask
  }

  // --- What a round stores ----------------------------------------------------------

  /** Every event of every joined room has its required fields. */
  predicate EventsComplete(rooms: seq<seq<Wire>>)
  {
    forall i, j | 0 <= i < |rooms| && 0 <= j < |rooms[i]| :: Complete(rooms[i][j])
  }

  /** Some joined room's timeline brings an event of this id. */
  ghost predicate Brought(rooms: seq<seq<Wire>>, id: string)
  {
    exists i, j :: 0 <= i < |rooms| && 0 <= j < |rooms[i]| && rooms[i][j].eventId == Some(id)
  }

  /** The batch is the timelines one after another, each whole and in its order. */
  lemma {:induction false} BatchSplits(rooms: seq<seq<Wire>>, i: nat)
    requires i < |rooms|
    ensures Batch(rooms) == Batch(rooms[..i]) + rooms[i] + Batch(rooms[i + 1..])
    decreases i
  {
    if i > 0 {
      BatchSplits(rooms[1..], i - 1);
      assert rooms[..i][1..] == rooms[1..][..i - 1] && rooms[1..][i..] == rooms[i + 1..];
    }
  }

  lemma {:induction false} BatchHolds(rooms: seq<seq<Wire>>, w: Wire)
    ensures w in Batch(rooms) <==> exists i, j :: 0 <= i < |rooms| && 0 <= j < |rooms[i]| && rooms[i][j] == w
  {
    if rooms != [] {
      BatchHolds(rooms[1..], w);
      if w in Batch(rooms[1..]) {
        var i, j :| 0 <= i < |rooms[1..]| && 0 <= j < |rooms[1..][i]| && rooms[1..][i][j] == w;
        assert rooms[i + 1][j] == w;
      }
      if i, j :| 0 <= i < |rooms| && 0 <= j < |rooms[i]| && rooms[i][j] == w {
        assert i > 0 ==> rooms[1..][i - 1][j] == w;
      }
    }
  }

  lemma BatchTells(rooms: seq<seq<Wire>>)
    ensures (forall k | 0 <= k < |Batch(rooms)| :: Complete(Batch(rooms)[k])) <==> EventsComplete(rooms)
    ensures forall id :: Names(Batch(rooms), id) <==> Brought(rooms, id)
  {
    hide Batch, Complete;
    var ws := Batch(rooms);
    if EventsComplete(rooms) {
      forall k | 0 <= k < |ws| ensures Complete(ws[k]) {
        BatchHolds(rooms, ws[k]);
      }
    }
    if forall k | 0 <= k < |ws| :: Complete(ws[k]) {
      forall i, j | 0 <= i < |rooms| && 0 <= j < |rooms[i]| ensures Complete(rooms[i][j]) {
        BatchHolds(rooms, rooms[i][j]);
      }
    }
    forall id ensures Names(ws, id) <==> Brought(rooms, id) {
      if k :| 0 <= k < |ws| && ws[k].eventId == Some(id) {
        BatchHolds(rooms, ws[k]);
      }
      if i, j :| 0 <= i < |rooms| && 0 <= j < |rooms[i]| && rooms[i][j].eventId == Some(id) {
        BatchHolds(rooms, rooms[i][j]);
      }
    }
  }

  /** Folding a response stores every event of every room and nothing else, or, if
      any of them lacks a field, nothing. */
  lemma FoldStoresEveryRoom(db: Db, resp: Response)
    ensures var (folded, applied) := ApplyEvents(db, Batch(resp.rooms));
            && (applied.Ok? <==> EventsComplete(resp.rooms))
            && (applied.Malformed? ==> folded == db)
            && (applied.Ok? ==>
                  && (forall id :: id in folded.events <==> id in db.events || Brought(resp.rooms, id))
                  && (forall id | id in db.events :: folded.events[id] == db.events[id])
                  && folded.token == db.token && folded.pending == db.pending)
  {
    hide ApplyEvents, Batch, EventsComplete, Brought, Names, Complete;
    BatchIsStored(db, Batch(resp.rooms));
    BatchTells(resp.rooms);
  }

  predicate Acknowledged(tries: seq<Try>, id: string)
  {
    exists k :: 0 <= k < |tries| && tries[k].reply == Acked(id)
  }

  ghost predicate IsEchoOf(db: Db, id: string)
  {
    exists txn :: txn in db.pending && db.pending[txn].echo == id
  }

  /** A flush drops no row but a pending send's echo and adds none but one the
      server acknowledged. */
  ghost predicate FlushRows(db: Db, db': Db, tries: seq<Try>)
  {
    && (forall id | id in db.events :: id in db'.events || IsEchoOf(db, id))
    && (forall id | id in db'.events :: id in db.events || Acknowledged(tries, id))
    && (forall txn | txn in db'.pending :: txn in db.pending && db'.pending[txn] == db.pending[txn])
    && db'.token == db.token
  }

  lemma FlushOneRows(db: Db, e: Engine, mls: bool, q: Queued, tries: seq<Try>)
    ensures FlushRows(db, FlushOne(db, e, mls, q, TryNow(tries)).0.db, tries)
  {
    hide CarryOver, Promote, IsRoomEncrypted, Encrypt;
    assert tries != [] ==> TryNow(tries) == tries[0];
  }

  lemma {:induction false} FlushKeepsRows(db: Db, e: Engine, mls: bool, qs: seq<Queued>, tries: seq<Try>)
    ensures FlushRows(db, FlushItems(db, e, mls, qs, tries).db, tries)
    decreases |qs|
  {
    hide FlushOne;
    if qs != [] {
      var (one, stop) := FlushOne(db, e, mls, qs[0], TryNow(tries));
      FlushOneRows(db, e, mls, qs[0], tries);
      if !stop {
        FlushKeepsRows(one.db, one.engine, mls, qs[1..], TryLater(tries));
        forall id | Acknowledged(TryLater(tries), id) ensures Acknowledged(tries, id) {
          var k :| 0 <= k < |TryLater(tries)| && TryLater(tries)[k].reply == Acked(id);
          assert tries[k + 1].reply == Acked(id);
        }
      }
    }
  }

  /** A round with an incomplete event in any room changes nothing and is fatal. Any
      other logs every event of every room, and no row but those and its own sends
      the server acknowledged; it loses none but an echo, and saves the token. */
  lemma RoundStoresEveryRoom(db: Db, e: Engine, mls: bool, user: string, resp: Response, env: Env)
    ensures var round := SyncRound(db, e, mls, user, resp, env);
            if !EventsComplete(resp.rooms) then round == Round(db, e, None)
            else
              && (forall id | id in db.events || Brought(resp.rooms, id) ::
                    id in round.db.events || IsEchoOf(db, id))
              && (forall id | id in round.db.events ::
                    id in db.events || Brought(resp.rooms, id) || Acknowledged(env.tries, id))
              && round.db.token == if resp.next.Some? then resp.next else db.token
  {
    hide ApplyEvents, HandleToDevice, InboundPass, FlushItems, EventsComplete, Brought, Batch, PendingSends;
    FoldStoresEveryRoom(db, resp);
    if EventsComplete(resp.rooms) {
      var folded := ApplyEvents(db, Batch(resp.rooms)).0;
      var at, e' := SaveToken(folded, resp), HandleToDevice(e, mls, resp, env.verdicts).0;
      PassKeepsIds(at, e', mls, user, env.calls);
      var p := InboundPass(at, e', mls, user, env.calls);
      FlushKeepsRows(p.db, p.engine, mls, PendingSends(p.db), env.tries);
    } else {
      assert ApplyEvents(db, Batch(resp.rooms)).1.Malformed?;
    }
  }

  /** A round ends the loop exactly when an event of some room lacks a field, and then
      changes nothing, or when the engine cannot be asked about some message or commit
      that the pass comes to. Then every event of every room is stored all the same,
      the token is saved, and the observer is not called. */
  lemma FatalRoundIff(db: Db, e: Engine, mls: bool, user: string, resp: Response, env: Env)
    ensures var round := SyncRound(db, e, mls, user, resp, env);
            && (!EventsComplete(resp.rooms) ==> round == Round(db, e, None))
            && (EventsComplete(resp.rooms) ==>
                  && (round.refresh.None? <==> QuestionFails(ApplyEvents(db, Batch(resp.rooms)).0, mls, env))
                  && (round.refresh.None? ==>
                        && (forall id :: id in round.db.events <==> id in db.events || Brought(resp.rooms, id))
                        && round.db.token == if resp.next.Some? then resp.next else db.token))
  {
    hide ApplyEvents, HandleToDevice, InboundPass, PendingMls, FlushPending, QuestionFails, Batch, EventsComplete,
        Brought;
    FoldStoresEveryRoom(db, resp);
    if EventsComplete(resp.rooms) {
      var folded := ApplyEvents(db, Batch(resp.rooms)).0;
      var e' := HandleToDevice(e, mls, resp, env.verdicts).0;
      PassKeepsIds(SaveToken(folded, resp), e', mls, user, env.calls);
      PassStopsIff(folded, e', mls, user, resp, env);
    } else {
      assert ApplyEvents(db, Batch(resp.rooms)).1.Malformed?;
    }
  }

  lemma SavingKeeps(db: Db, resp: Response)
    ensures SaveToken(db, resp) == db.(token := SaveToken(db, resp).token)
  {
  }

  lemma PassStopsIff(db: Db, e: Engine, mls: bool, user: string, resp: Response, env: Env)
    ensures InboundPass(SaveToken(db, resp), e, mls, user, env.calls).stopped <==> QuestionFails(db, mls, env)
  {
    hide ProcessItems, PendingMls;
    SavingKeeps(db, resp);
    StreamIgnoresToken(db, SaveToken(db, resp).token);
    if mls {
      StopsIff(SaveToken(db, resp), e, user, PendingMls(db), env.calls);
    }
  }

  lemma StreamIgnoresToken(db: Db, token: Option<string>)
    ensures PendingMls(db.(token := token)) == PendingMls(db)
  {
    assert MlsRanks(db.(token := token)) == MlsRanks(db);
  }

  /** One message arrives, and then the engine cannot be asked for its group: the
      message is stored and acknowledged, the loop ends, and nobody is told. */
  lemma UnannouncedMessage(e: Engine, user: string, ev: Event, token: string)
    requires Agrees(NewRow(ev)) && ItemOf(NewRow(ev)).Some? && ev.stateKey.None?
    ensures var resp := Response([[ev.payload]], None, Some(token));
            var round := SyncRound(EMPTY_DB, e, true, user, resp, Env([], [Call(false, Works)], []));
            && round.refresh == None && round.engine == e
            && round.db == Db(map[ev.eventId := NewRow(ev)], map[], map[], Some(token))
  {
    var rooms := [[ev.payload]];
    assert rooms[1..] == [] && Batch(rooms) == [ev.payload] + [] == [ev.payload];
    assert [ev.payload][1..] == [] && ParseAll([ev.payload]) == Ok([ev] + []) && [ev] + [] == [ev];
    ApplySingle(EMPTY_DB, ev);
    var db := Db(map[ev.eventId := NewRow(ev)], map[], map[], Some(token));
    assert Inserted(EMPTY_DB, [ev]) == 1 by {
      assert [ev][..0] == [];
    }
    assert Rank(ev.depth, ev.eventId) in MlsRanks(db);
  }

  lemma PassKeepsIds(db: Db, e: Engine, mls: bool, user: string, calls: seq<Call>)
    ensures InboundPass(db, e, mls, user, calls).db.events.Keys == db.events.Keys
    ensures InboundPass(db, e, mls, user, calls).db.token == db.token
    ensures InboundPass(db, e, mls, user, calls).db.pending == db.pending
  {
    if mls {
      ItemsKeepIds(db, e, user, PendingMls(db), calls);
    }
  }

  lemma {:induction false} ItemsKeepIds(db: Db, e: Engine, user: string, items: seq<MlsItem>, calls: seq<Call>)
    ensures ProcessItems(db, e, user, items, calls).db.events.Keys == db.events.Keys
    ensures ProcessItems(db, e, user, items, calls).db.token == db.token
    ensures ProcessItems(db, e, user, items, calls).db.pending == db.pending
    decreases |items|
  {
    if items != [] && CallNow(calls).ask {
      var one := ProcessItem(db, e, user, items[0], CallNow(calls).io);
      ItemsKeepIds(one.db, one.engine, user, items[1..], CallLater(calls));
    }
  }

  /** No missed refresh: without depth ties a round that does not call the
      observer leaves every read unchanged. */
  lemma NoMissedRefresh(db: Db, u: Universe, e: Engine, mls: bool, user: string, resp: Response, env: Env,
      evs: seq<Event>)
    requires StoreInv(db, u) && NoTies(db)
    requires ParseAll(Batch(resp.rooms)) == Ok(evs) && Drawn(u, evs)
    requires SyncRound(db, e, mls, user, resp, env).refresh == Some(false)
    ensures SyncRound(db, e, mls, user, resp, env).db == SaveToken(db, resp)
    ensures SameReads(db, SyncRound(db, e, mls, user, resp, env).db)
  {
    SilentRoundOnlyReplays(db, e, mls, user, resp, env, evs);
    ReplayWithoutTies(db, u, evs);
    TokenIsNotRead(db, SaveToken(db, resp).token);
  }

  /** With ties, the silent round is harmless exactly when the replayed batch
      flips none of them. */
  lemma SilentRoundHarmlessIff(db: Db, e: Engine, mls: bool, user: string, resp: Response, env: Env, evs: seq<Event>)
    requires ParseAll(Batch(resp.rooms)) == Ok(evs)
    requires SyncRound(db, e, mls, user, resp, env).refresh == Some(false)
    ensures SyncRound(db, e, mls, user, resp, env).db == SaveToken(db, resp) <==> NoTieToFlip(db, evs)
  {
    SilentRoundOnlyReplays(db, e, mls, user, resp, env, evs);
    ReplayHarmlessIff(db, evs);
    NothingNew(db, evs);
  }
}
