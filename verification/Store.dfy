/** The local store as the class the client holds. Each method is one
    transaction; its contract equates the new tables with the transaction of
    Tables.dfy. Ids and clock readings come in as parameters. */
module Store {
  import opened Base
  import opened Order
  import opened Mls
  import opened Events
  import opened T = Tables
  import opened CurrentState
  import opened Effects

  /** Dropping the rows that carry neither a ciphertext nor a commit leaves the
      inbound stream. */
  lemma StreamIs(db: Db, rows: seq<Rank>, kept: seq<Rank>, items: seq<MlsItem>)
    requires rows == Ordered(set id | id in db.events && Unhandled(db.events[id]) :: Rank(db.events[id].ev.depth, id))
    requires |items| == |kept| && Ascending(kept)
    requires forall q :: q in kept <==> q in rows && q.id in db.events && ItemOf(db.events[q.id]).Some?
    requires forall j | 0 <= j < |kept| :: kept[j].id in db.events && ItemOf(db.events[kept[j].id]) == Some(items[j])
    ensures items == PendingMls(db)
  {
    var all := set id | id in db.events && Unhandled(db.events[id]) :: Rank(db.events[id].ev.depth, id);
    forall q ensures q in kept <==> q in MlsRanks(db) {
      assert q in rows <==> q in all;
    }
    AscendingUnique(kept, Ordered(MlsRanks(db)));
  }

  /** Room state has a marker for the room exactly when the log does. */
  lemma MarkedInLog(db: Db, room: string)
    requires StateIsArgmax(db)
    ensures IsRoomEncrypted(db, room) <==> exists k, id :: Holds(db, k, id) && k.room == room && k.ty == Encryption
  {
    if IsRoomEncrypted(db, room) {
      var k :| k in db.roomState && k.room == room && k.ty == Encryption;
      assert Holds(db, k, db.roomState[k].eventId);
    }
  }

  lemma RoomsAreListed(db: Db)
    ensures InOrder(db, ListRooms(db))
    ensures StateIsArgmax(db) ==> forall room :: Listed(ListRooms(db), room) <==> HasState(db.events, room)
  {
    hide ListRooms, StateIsArgmax, Listed, HasState;
    ListIsInOrder(db);
    if StateIsArgmax(db) {
      forall room ensures Listed(ListRooms(db), room) <==> HasState(db.events, room) {
        RoomsHaveState(db, room);
      }
    }
  }

  class LocalStore {
    var events: map<string, Row>
    var roomState: map<StateKey, StateRow>
    var pending: map<string, Pending>
    var token: Option<string>

    ghost function Contents(): Db
      reads this
    {
      Db(events, roomState, pending, token)
    }

    constructor Open()
      ensures Contents() == EMPTY_DB
    {
      events, roomState, pending, token := map[], map[], map[], None;
    }

    method SaveSyncToken(t: string)
      modifies this`token
      ensures Contents() == old(Contents()).(token := Some(t))
    {
      token := Some(t);
    }

    method LoadSyncToken() returns (t: Option<string>)
      ensures t == Contents().token
    {
      t := token;
    }

    /** Parses the whole batch before it writes anything. */
    method ApplyEvents(ws: seq<Wire>) returns (r: Result<nat>)
      modifies this`events, this`roomState
      ensures (Contents(), r) == T.ApplyEvents(old(Contents()), ws)
      ensures BatchStored(old(Contents()), Contents(), ws, r)
    {
      hide BatchStored, ParseAll, FromWire;
      BatchIsStored(Contents(), ws);
      var parsed := ParseBatch(ws);
      if parsed.Malformed? {
        return Malformed(parsed.field);
      }
      var inserted := InsertBatch(parsed.value);
      r := Ok(inserted);
    }

    method InsertBatch(evs: seq<Event>) returns (inserted: nat)
      modifies this`events, this`roomState
      ensures Contents() == ApplyAll(old(Contents()), evs)
      ensures inserted == Inserted(old(Contents()), evs)
    {
      inserted := 0;
      ghost var db := Contents();
      for i := 0 to |evs|
        invariant Contents() == ApplyAll(db, evs[..i])
        invariant inserted == Inserted(db, evs[..i])
      {
        var ev := evs[i];
        assert evs[..i + 1][..i] == evs[..i];
        if ev.eventId !in events {
          events := events[ev.eventId := NewRow(ev)];
          inserted := inserted + 1;
        }
        if ev.stateKey.Some? {
          var key := StateKey(ev.roomId, ev.ty, ev.stateKey.value);
          if key !in roomState || ev.depth >= roomState[key].depth {
            roomState := roomState[key := StateRow(ev.eventId, ev.depth)];
          }
        }
      }
      assert evs[..|evs|] == evs;
    }

    /** A page, oldest first. The query runs newest first and the result is
        reversed. */
    method Timeline(room: string, limit: nat, before: Option<int>) returns (r: Result<seq<Stored>>)
      ensures var page := Page(Contents(), room, limit, before);
              && (forall i | 0 <= i < |page| :: page[i].id in events)
              && (r.Ok? <==> forall i | 0 <= i < |page| :: ReadRow(events[page[i].id]).Ok?)
              && (r.Ok? ==> |r.value| == |page| && forall i | 0 <= i < |page| ::
                   ReadRow(events[page[i].id]) == Ok(r.value[i]))
    {
      var page := Page(Db(events, roomState, pending, token), room, limit, before);
      PageInLog(Contents(), room, limit, before);
      r := ReadNewestFirst(events, page);
    }

    method Rooms() returns (rooms: seq<Summary>)
      ensures rooms == ListRooms(Contents()) && InOrder(Contents(), rooms)
      ensures StateIsArgmax(Contents()) ==> forall room :: Listed(rooms, room) <==> HasState(events, room)
    {
      hide InOrder, Listed, HasState, StateIsArgmax, Summarise;
      RoomsAreListed(Contents());
      var db := Db(events, roomState, pending, token);
      var ranks := Ordered(RoomRanks(db));
      rooms := [];
      for i := 0 to |ranks|
        invariant rooms == ListRooms(Contents())[..i]
      {
        rooms := rooms + [Summarise(db, ranks[i].id)];
      }
    }

    method RoomIsEncrypted(room: string) returns (yes: bool)
      ensures yes == IsRoomEncrypted(Contents(), room)
      ensures StateIsArgmax(Contents()) ==>
                (yes <==> exists k, id :: Holds(Contents(), k, id) && k.room == room && k.ty == Encryption)
    {
      if StateIsArgmax(Contents()) {
        MarkedInLog(Contents(), room);
      }
      yes := exists k :: k in roomState && k.room == room && k.ty == Encryption;
    }

    /** `false` when a row with one of the ids exists: the primary keys refuse
        the insert and nothing is written. */
    method QueueSend(txn: string, echo: string, room: string, sender: string, body: string, ts: int) returns (ok: bool)
      modifies this`events, this`pending
      ensures ok == (echo !in old(events) && txn !in old(pending))
      ensures Contents() == if ok then T.QueueSend(old(Contents()), txn, echo, room, sender, body, ts)
               else old(Contents())
      ensures ok ==> EchoStands(old(Contents()), Contents(), txn, echo, room, sender, body, ts)
    {
      hide EchoStands;
      if echo in events || txn in pending {
        return false;
      }
      QueueingStands(Contents(), txn, echo, room, sender, body, ts);
      var depth := NextDepth(events, room);
      var payload := Wire(Some(echo), Some(room), Some(sender), Some(Message), None, Some(ts), Some(depth),
                          TextContent(body), "");
      events := events[echo := Row(Event(echo, room, sender, Message, None, ts, depth, payload), Sending, None,
        Untried)];
      pending := pending[txn := Pending(room, body, echo, ts)];
      ok := true;
    }

    /** Each pending send once, oldest first, by transaction id among equals. */
    method QueuedSends() returns (q: seq<Queued>)
      ensures q == PendingSends(Contents())
      ensures forall i | 0 <= i < |q| ::
                q[i].txn in pending && q[i] == Queued(q[i].txn, pending[q[i].txn].room, pending[q[i].txn].body)
      ensures forall txn | txn in pending :: exists i :: 0 <= i < |q| && q[i].txn == txn
      ensures forall i, j | 0 <= i < j < |q| ::
                var a, b := pending[q[i].txn].created, pending[q[j].txn].created;
                a < b || (a == b && TextLess(q[i].txn, q[j].txn))
    {
      QueueInOrder(Contents());
      q := PendingSends(Db(events, roomState, pending, token));
    }

    method RoomHasPendingSend(room: string) returns (yes: bool)
      ensures yes == HasPendingSend(Contents(), room)
      ensures yes <==> exists i :: 0 <= i < |PendingSends(Contents())| && PendingSends(Contents())[i].room == room
    {
      QueueInOrder(Contents());
      yes := exists txn :: txn in pending && pending[txn].room == room;
    }

    method ResolveSend(txn: string, id: string)
      modifies this`events, this`pending
      ensures Contents() == T.ResolveSend(old(Contents()), txn, id)
      ensures if txn in old(pending) then Resolved(old(Contents()), Contents(), txn, id)
              else Contents() == old(Contents())
    {
      hide Resolved;
      if txn in pending {
        ResolvingSays(Contents(), txn, id);
        var p := pending[txn];
        if id in events {
          if events[id].ev.ty == Encrypted {
            events := events[id := events[id].(decrypted := Some(p.body), state := Done)];
          }
          events := events - {p.echo};
        } else if p.echo in events {
          var row := events[p.echo];
          var promoted := row.(ev := row.ev.(eventId := id, payload := row.ev.payload.(eventId := Some(id))),
              local := Confirmed);
          events := events - {p.echo};
          events := events[id := promoted];
        }
      }
      pending := pending - {txn};
      assert Contents().events == T.ResolveSend(old(Contents()), txn, id).events;
    }

    method FailSend(txn: string)
      modifies this`events, this`pending
      ensures Contents() == T.FailSend(old(Contents()), txn)
      ensures if txn in old(pending) then FailedOnly(old(Contents()), Contents(), txn)
              else Contents() == old(Contents())
    {
      if txn in pending {
        var echo := pending[txn].echo;
        if echo in events {
          events := events[echo := events[echo].(local := Failed)];
        }
      }
      pending := pending - {txn};
    }

    /** The query returns every unhandled row in DAG order; the loop drops those
        that carry no ciphertext or commit. */
    method InboundMls() returns (items: seq<MlsItem>)
      ensures items == PendingMls(Contents())
      ensures RowsAgree(Contents()) ==> StreamOf(Contents(), items)
    {
      hide PendingMls, ItemOf, Unhandled, RowsAgree, StreamOf;
      if RowsAgree(Contents()) {
        StreamIsExact(Contents());
      }
      var rows := Ordered(set id | id in events && Unhandled(events[id]) :: Rank(events[id].ev.depth, id));
      ghost var kept: seq<Rank> := [];
      items := [];
      for i := 0 to |rows|
        invariant |items| == |kept| && Ascending(kept)
        invariant forall q :: q in kept <==> q in rows[..i] && q.id in events && ItemOf(events[q.id]).Some?
        invariant forall j | 0 <= j < |kept| :: kept[j].id in events && ItemOf(events[kept[j].id]) == Some(items[j])
      {
        assert rows[i] in rows && rows[..i + 1] == rows[..i] + [rows[i]];
        var item := ItemOf(events[rows[i].id]);
        if item.Some? {
          forall j | 0 <= j < |kept| ensures Below(kept[j], rows[i]) {
            assert kept[j] in kept;
          }
          items := items + [item.value];
          kept := kept + [rows[i]];
        }
      }
      assert rows[..|rows|] == rows;
      StreamIs(Contents(), rows, kept, items);
    }

    method SetDecrypted(id: string, text: string)
      modifies this`events
      ensures Contents() == T.SetDecrypted(old(Contents()), id, text)
    {
      if id in events {
        events := events[id := events[id].(decrypted := Some(text), state := Done)];
      }
    }

    method SetDecryptFailed(id: string)
      modifies this`events
      ensures Contents() == SetState(old(Contents()), id, GaveUp)
    {
      if id in events {
        events := events[id := events[id].(state := GaveUp)];
      }
    }

    method SetCommitProcessed(id: string)
      modifies this`events
      ensures Contents() == SetState(old(Contents()), id, Done)
    {
      if id in events {
        events := events[id := events[id].(state := Done)];
      }
    }
  }

  method ParseBatch(ws: seq<Wire>) returns (r: Result<seq<Event>>)
    ensures r == ParseAll(ws)
  {
    hide FromWire;
    var parsed: seq<Event> := [];
    assert ws[0..] == ws;
    assert forall rest: seq<Event> :: parsed + rest == rest;
    for i := 0 to |ws|
      invariant ParseAll(ws) == (match ParseAll(ws[i..])
                                 case Malformed(f) => Malformed(f)
                                 case Ok(rest) => Ok(parsed + rest))
    {
      assert ws[i..][0] == ws[i] && ws[i..][1..] == ws[i + 1..];
      var p := FromWire(ws[i]);
      if p.Malformed? {
        return Malformed(p.field);
      }
      parsed := parsed + [p.value];
      assert forall rest: seq<Event> :: parsed + rest == parsed[..|parsed| - 1] + ([p.value] + rest);
    }
    assert ws[|ws|..] == [] && parsed + [] == parsed;
    r := Ok(parsed);
  }

  method ReadNewestFirst(events: map<string, Row>, page: seq<Rank>) returns (r: Result<seq<Stored>>)
    requires forall i | 0 <= i < |page| :: page[i].id in events
    ensures r.Ok? <==> forall i | 0 <= i < |page| :: ReadRow(events[page[i].id]).Ok?
    ensures r.Ok? ==> |r.value| == |page| && forall i | 0 <= i < |page| :: ReadRow(events[page[i].id]) == Ok(r.value[i])
  {
    var newestFirst: seq<Stored> := [];
    for k := 0 to |page|
      invariant |newestFirst| == k
      invariant forall j | 0 <= j < k :: ReadRow(events[page[|page| - 1 - j].id]) == Ok(newestFirst[j])
    {
      var row := events[page[|page| - 1 - k].id];
      var s := ParseStored(row.ev.payload, row.local, row.decrypted, row.state);
      if s.Malformed? {
        return Malformed(s.field);
      }
      newestFirst := newestFirst + [s.value];
    }
    var oldestFirst := Reverse(newestFirst);
    forall i | 0 <= i < |page| ensures ReadRow(events[page[i].id]) == Ok(oldestFirst[i]) {
      var j := |page| - 1 - i;
      assert page[|page| - 1 - j] == page[i];
    }
    r := Ok(oldestFirst);
  }

  method Reverse(xs: seq<Stored>) returns (ys: seq<Stored>)
    ensures |ys| == |xs| && forall j | 0 <= j < |xs| :: ys[j] == xs[|xs| - 1 - j]
  {
    ys := [];
    for k := 0 to |xs|
      invariant |ys| == k && forall j | 0 <= j < k :: ys[j] == xs[|xs| - 1 - j]
    {
      ys := ys + [xs[|xs| - 1 - k]];
    }
  }

  lemma PageInLog(db: Db, room: string, limit: nat, before: Option<int>)
    ensures forall i | 0 <= i < |Page(db, room, limit, before)| ::
              var q := Page(db, room, limit, before)[i];
              q.id in db.events && q.n == db.events[q.id].ev.depth && OnPage(db.events[q.id], room, before)
  {
    var page := Page(db, room, limit, before);
    forall i | 0 <= i < |page| ensures page[i] in PageRanks(db, room, before) {
      assert page[i] in Ordered(PageRanks(db, room, before));
    }
  }
}
