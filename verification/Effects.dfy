/** What the store's transactions and reads come to, told in the fields of wires
    and rows. */
module Effects {
  import opened Base
  import opened Order
  import opened Mls
  import opened Events
  import opened T = Tables
  import opened CurrentState

  // --- Applying a batch ---------------------------------------------------------------

  ghost predicate Names(ws: seq<Wire>, id: string)
  {
    exists i :: 0 <= i < |ws| && ws[i].eventId == Some(id)
  }

  /** The wire brings an id that is not logged and that no earlier one brings. */
  ghost predicate FirstNew(db: Db, ws: seq<Wire>, i: nat)
    requires i < |ws|
  {
    && ws[i].eventId.Some? && ws[i].eventId.value !in db.events
    && forall j | 0 <= j < i :: ws[j].eventId != ws[i].eventId
  }

  /** A row as it is when it was just synced. */
  predicate Synced(row: Row, w: Wire)
  {
    ColumnsOf(row.ev, w) && row.local == Confirmed && row.decrypted.None? && row.state == Untried
  }

  predicate AimsAt(w: Wire, k: StateKey)
  {
    w.roomId == Some(k.room) && w.ty == Some(k.ty) && w.stateKey == Some(k.key)
  }

  /** Every slot a wire of the batch aims at is taken at least at its depth, and a
      slot that changed is taken by such a wire. */
  ghost predicate SlotsTaken(db: Db, db': Db, ws: seq<Wire>)
  {
    && (forall i, k | 0 <= i < |ws| && AimsAt(ws[i], k) && ws[i].depth.Some? ::
          k in db'.roomState && db'.roomState[k].depth >= ws[i].depth.value)
    && (forall k | k in db.roomState :: k in db'.roomState)
    && (forall k | k in db'.roomState && (k !in db.roomState || db'.roomState[k] != db.roomState[k]) ::
          exists i :: 0 <= i < |ws| && AimsAt(ws[i], k) && ws[i].eventId == Some(db'.roomState[k].eventId)
            && ws[i].depth == Some(db'.roomState[k].depth))
  }

  /** Exactly the new ids got a row, each that of the first wire to bring it, and
      `n` counts them. */
  ghost predicate RowsTaken(db: Db, db': Db, ws: seq<Wire>, n: int)
  {
    && db'.pending == db.pending && db'.token == db.token
    && (forall id | id in db.events :: id in db'.events && db'.events[id] == db.events[id])
    && (forall id :: id in db'.events <==> id in db.events || Names(ws, id))
    && (forall i: nat | i < |ws| && FirstNew(db, ws, i) ::
          ws[i].eventId.value in db'.events && Synced(db'.events[ws[i].eventId.value], ws[i]))
    && n == |db'.events| - |db.events|
  }

  lemma {:induction false} ParsesAll(ws: seq<Wire>)
    ensures ParseAll(ws).Ok? <==> forall i | 0 <= i < |ws| :: Complete(ws[i])
    ensures ParseAll(ws).Ok? ==> |ParseAll(ws).value| == |ws|
    ensures ParseAll(ws).Ok? ==> forall i | 0 <= i < |ws| :: ColumnsOf(ParseAll(ws).value[i], ws[i])
    ensures ParseAll(ws).Malformed? ==> exists i :: 0 <= i < |ws| && Lacks(ws[i], ParseAll(ws).field)
  {
    hide FromWire, Complete, ColumnsOf, Lacks;
    if ws != [] {
      WireParses(ws[0]);
      ParsesAll(ws[1..]);
      assert forall i | 0 <= i < |ws[1..]| :: ws[1..][i] == ws[i + 1];
      assert forall i | 0 < i < |ws| :: ws[i] == ws[1..][i - 1];
      if ParseAll(ws).Malformed? && FromWire(ws[0]).Ok? {
        var i :| 0 <= i < |ws[1..]| && Lacks(ws[1..][i], ParseAll(ws[1..]).field);
        assert Lacks(ws[i + 1], ParseAll(ws).field);
      }
    }
  }

  /** The wires and the events they parse into. */
  ghost predicate Parsed(evs: seq<Event>, ws: seq<Wire>)
  {
    |evs| == |ws| && forall i | 0 <= i < |ws| :: ColumnsOf(evs[i], ws[i])
  }

  lemma ParsedFront(evs: seq<Event>, ws: seq<Wire>)
    requires Parsed(evs, ws) && evs != []
    ensures Parsed(evs[..|evs| - 1], ws[..|ws| - 1])
  {
    hide ColumnsOf;
  }

  lemma NamesFront(ws: seq<Wire>, id: string)
    requires ws != []
    ensures Names(ws, id) <==> Names(ws[..|ws| - 1], id) || ws[|ws| - 1].eventId == Some(id)
  {
    var front := ws[..|ws| - 1];
    if i :| 0 <= i < |ws| && ws[i].eventId == Some(id) {
      assert i < |front| ==> front[i] == ws[i];
    }
    if i :| 0 <= i < |front| && front[i].eventId == Some(id) {
      assert ws[i] == front[i];
    }
  }

  lemma {:induction false} RowsAreTaken(db: Db, evs: seq<Event>, ws: seq<Wire>)
    requires Parsed(evs, ws)
    ensures RowsTaken(db, ApplyAll(db, evs), ws, Inserted(db, evs))
    decreases |evs|
  {
    if evs != [] {
      var last := |evs| - 1;
      ParsedFront(evs, ws);
      RowsAreTaken(db, evs[..last], ws[..last]);
      RowIsTaken(db, ApplyAll(db, evs[..last]), evs[last], ws, Inserted(db, evs[..last]));
    }
  }

  /** One more event: who is logged, */
  lemma LoggedAfter(db: Db, mid: Db, ev: Event, ws: seq<Wire>, n: int)
    requires ws != [] && ColumnsOf(ev, ws[|ws| - 1]) && RowsTaken(db, mid, ws[..|ws| - 1], n)
    ensures forall id :: id in ApplyOne(mid, ev).events <==> id in db.events || Names(ws, id)
  {
    hide FoldState, Names, Synced;
    forall id ensures id in ApplyOne(mid, ev).events <==> id in db.events || Names(ws, id) {
      NamesFront(ws, id);
    }
  }

  /** with which row, */
  lemma SyncedAfter(db: Db, mid: Db, ev: Event, ws: seq<Wire>, n: int, i: nat)
    requires ws != [] && ColumnsOf(ev, ws[|ws| - 1]) && RowsTaken(db, mid, ws[..|ws| - 1], n)
    requires i < |ws| && FirstNew(db, ws, i)
    ensures ws[i].eventId.value in ApplyOne(mid, ev).events
             && Synced(ApplyOne(mid, ev).events[ws[i].eventId.value], ws[i])
  {
    hide FoldState, Names, Synced;
    var front := ws[..|ws| - 1];
    if i < |front| {
      assert front[i] == ws[i] && FirstNew(db, front, i);
    } else {
      NotNamedBefore(ws, ev.eventId);
      NewRowIsSynced(ev, ws[i]);
    }
  }

  lemma NewRowIsSynced(ev: Event, w: Wire)
    requires ColumnsOf(ev, w)
    ensures Synced(NewRow(ev), w)
  {
  }

  /** and how many. */
  lemma CountAfter(events: map<string, Row>, ev: Event)
    ensures |InsertEvent(events, ev)| == |events| + if ev.eventId in events then 0 else 1
  {
    if ev.eventId !in events {
      assert InsertEvent(events, ev).Keys == events.Keys + {ev.eventId};
    }
  }

  lemma RowIsTaken(db: Db, mid: Db, ev: Event, ws: seq<Wire>, n: int)
    requires ws != [] && ColumnsOf(ev, ws[|ws| - 1]) && RowsTaken(db, mid, ws[..|ws| - 1], n)
    ensures RowsTaken(db, ApplyOne(mid, ev), ws, n + if ev.eventId in mid.events then 0 else 1)
  {
    LoggedAfter(db, mid, ev, ws, n);
    CountAfter(mid.events, ev);
    forall i: nat | i < |ws| && FirstNew(db, ws, i) {
      SyncedAfter(db, mid, ev, ws, n, i);
    }
    hide FoldState, Names, Synced, FirstNew, ColumnsOf;
  }

  lemma NotNamedBefore(ws: seq<Wire>, id: string)
    requires ws != [] && forall j | 0 <= j < |ws| - 1 :: ws[j].eventId != Some(id)
    ensures !Names(ws[..|ws| - 1], id)
  {
  }

  lemma {:induction false} SlotsAreTaken(db: Db, evs: seq<Event>, ws: seq<Wire>)
    requires Parsed(evs, ws)
    ensures SlotsTaken(db, ApplyAll(db, evs), ws)
    decreases |evs|
  {
    if evs != [] {
      var last := |evs| - 1;
      ParsedFront(evs, ws);
      SlotsAreTaken(db, evs[..last], ws[..last]);
      SlotIsTaken(db, ApplyAll(db, evs[..last]), evs[last], ws);
    }
  }

  lemma SlotIsTaken(db: Db, mid: Db, ev: Event, ws: seq<Wire>)
    requires ws != [] && ColumnsOf(ev, ws[|ws| - 1]) && SlotsTaken(db, mid, ws[..|ws| - 1])
    ensures SlotsTaken(db, ApplyOne(mid, ev), ws)
  {
    hide InsertEvent;
    var front, db' := ws[..|ws| - 1], ApplyOne(mid, ev);
    forall i, k | 0 <= i < |ws| && AimsAt(ws[i], k) && ws[i].depth.Some?
      ensures k in db'.roomState && db'.roomState[k].depth >= ws[i].depth.value
    {
      assert i < |front| ==> front[i] == ws[i];
    }
    forall k | k in db'.roomState && (k !in db.roomState || db'.roomState[k] != db.roomState[k])
      ensures exists i :: 0 <= i < |ws| && AimsAt(ws[i], k) && ws[i].eventId == Some(db'.roomState[k].eventId)
                && ws[i].depth == Some(db'.roomState[k].depth)
    {
      if k in mid.roomState && db'.roomState[k] == mid.roomState[k] {
        var i :| 0 <= i < |front| && AimsAt(front[i], k) && front[i].eventId == Some(mid.roomState[k].eventId)
            && front[i].depth == Some(mid.roomState[k].depth);
        assert ws[i] == front[i];
      } else {
        assert AimsAt(ws[|ws| - 1], k);
      }
    }
  }

  /** A batch is applied if and only if all its wires are complete, and then exactly
      as its wires say; otherwise nothing happens. */
  ghost predicate BatchStored(db: Db, db': Db, ws: seq<Wire>, r: Result<nat>)
  {
    && (r.Ok? <==> forall i | 0 <= i < |ws| :: Complete(ws[i]))
    && (r.Malformed? ==> db' == db && exists i :: 0 <= i < |ws| && Lacks(ws[i], r.field))
    && (r.Ok? ==> RowsTaken(db, db', ws, r.value) && SlotsTaken(db, db', ws))
  }

  lemma BatchIsStored(db: Db, ws: seq<Wire>)
    ensures BatchStored(db, ApplyEvents(db, ws).0, ws, ApplyEvents(db, ws).1)
  {
    hide ApplyAll, Inserted, RowsTaken, SlotsTaken, Complete, Lacks;
    ParsesAll(ws);
    if ParseAll(ws).Ok? {
      RowsAreTaken(db, ParseAll(ws).value, ws);
      SlotsAreTaken(db, ParseAll(ws).value, ws);
    }
  }

  // --- Queueing and its echo -------------------------------------------------------------

  predicate IsEchoRow(row: Row, echo: string, room: string, sender: string, body: string, ts: int)
  {
    && row.ev.eventId == echo && row.ev.roomId == room && row.ev.sender == sender && row.ev.ty == Message
    && row.ev.stateKey.None? && row.ev.ts == ts && ColumnsOf(row.ev, row.ev.payload)
    && IsText(row.ev.payload.content, body)
    && row.local == Sending && row.decrypted.None? && row.state == Untried
  }

  /** One past the deepest row of the room, or 1 when it has none. */
  ghost predicate OnePast(events: map<string, Row>, room: string, depth: int)
  {
    && (forall id | id in events && events[id].ev.roomId == room :: events[id].ev.depth < depth)
    && (if exists id :: id in events && events[id].ev.roomId == room
        then exists id :: id in events && events[id].ev.roomId == room && events[id].ev.depth + 1 == depth
        else depth == 1)
  }

  /** The echo and its queue row are the only ones added; the echo stands one past
      the room's deepest event, and so at the end of the newest page. */
  ghost predicate EchoStands(db: Db, db': Db, txn: string, echo: string, room: string, sender: string, body: string,
      ts: int)
  {
    && db'.roomState == db.roomState && db'.token == db.token
    && db'.pending == db.pending[txn := Pending(room, body, echo, ts)]
    && db'.events.Keys == db.events.Keys + {echo}
    && (forall id | id in db.events && id != echo :: db'.events[id] == db.events[id])
    && IsEchoRow(db'.events[echo], echo, room, sender, body, ts)
    && OnePast(db.events, room, db'.events[echo].ev.depth)
    && forall limit: nat | limit > 0 ::
         Page(db', room, limit, None) != []
         && Page(db', room, limit, None)[|Page(db', room, limit, None)| - 1] == Rank(db'.events[echo].ev.depth, echo)
  }

  lemma NextDepthIsOnePast(events: map<string, Row>, room: string)
    ensures OnePast(events, room, NextDepth(events, room))
  {
    var depths := DepthsIn(events, room);
    forall id | id in events && events[id].ev.roomId == room ensures events[id].ev.depth < NextDepth(events, room) {
      assert Rank(events[id].ev.depth, id) in depths;
    }
    if id :| id in events && events[id].ev.roomId == room {
      assert Rank(events[id].ev.depth, id) in depths;
      var q :| q in depths && q.n == Highest(depths);
      assert q.id in events && events[q.id].ev.depth + 1 == NextDepth(events, room);
    } else {
      assert depths == {};
    }
  }

  /** What is deeper than all the rest of a room ends its newest page. */
  lemma DeepestEndsPage(db: Db, room: string, id: string, limit: nat)
    requires id in db.events && OnPage(db.events[id], room, None) && limit > 0
    requires forall other | other in db.events && db.events[other].ev.roomId == room && other != id ::
               db.events[other].ev.depth < db.events[id].ev.depth
    ensures var page := Page(db, room, limit, None);
            page != [] && page[|page| - 1] == Rank(db.events[id].ev.depth, id)
  {
    var all, q := Ordered(PageRanks(db, room, None)), Rank(db.events[id].ev.depth, id);
    assert q in PageRanks(db, room, None) && q in all;
    var last := all[|all| - 1];
    assert last in all && last in PageRanks(db, room, None);
    LastAbove(all, q);
  }

  lemma QueueingStands(db: Db, txn: string, echo: string, room: string, sender: string, body: string, ts: int)
    requires echo !in db.events
    ensures EchoStands(db, QueueSend(db, txn, echo, room, sender, body, ts), txn, echo, room, sender, body, ts)
  {
    hide NextDepth, Page, OnePast;
    var db' := QueueSend(db, txn, echo, room, sender, body, ts);
    NextDepthIsOnePast(db.events, room);
    EchoIsDeepest(db, db', echo, room);
    forall limit: nat | limit > 0 {
      DeepestEndsPage(db', room, echo, limit);
    }
  }

  lemma EchoIsDeepest(db: Db, db': Db, echo: string, room: string)
    requires echo in db'.events && OnePast(db.events, room, db'.events[echo].ev.depth)
    requires forall id | id in db'.events && id != echo :: id in db.events && db'.events[id] == db.events[id]
    ensures forall other | other in db'.events && db'.events[other].ev.roomId == room && other != echo ::
              db'.events[other].ev.depth < db'.events[echo].ev.depth
  {
  }

  // --- Settling a send ---------------------------------------------------------------------

  /** What resolving one send does, row by row. */
  ghost predicate Resolved(db: Db, db': Db, txn: string, id: string)
    requires txn in db.pending
  {
    var p := db.pending[txn];
    && db'.pending == db.pending - {txn} && db'.roomState == db.roomState && db'.token == db.token
    && (forall e :: e in db'.events <==>
          (e in db.events && e != p.echo) || (e == id && id !in db.events && p.echo in db.events))
    && (forall e | e in db'.events && e != id :: db'.events[e] == db.events[e])
    && (id in db'.events ==>
          if id in db.events then IsCarriedOver(db.events[id], db'.events[id], p.body)
          else IsPromoted(db.events[p.echo], db'.events[id], id))
  }

  /** What failing one send does: the echo is flagged, and nothing else about it. */
  ghost predicate FailedOnly(db: Db, db': Db, txn: string)
    requires txn in db.pending
  {
    var echo := db.pending[txn].echo;
    && db'.pending == db.pending - {txn} && db'.roomState == db.roomState && db'.token == db.token
    && db'.events.Keys == db.events.Keys
    && (forall e | e in db.events && e != echo :: db'.events[e] == db.events[e])
    && (echo in db.events ==>
          && db'.events[echo].ev == db.events[echo].ev && db'.events[echo].local == Failed
          && db'.events[echo].decrypted == db.events[echo].decrypted
          && db'.events[echo].state == db.events[echo].state)
  }

  lemma ResolvingSays(db: Db, txn: string, id: string)
    requires txn in db.pending
    ensures Resolved(db, ResolveSend(db, txn, id), txn, id)
  {
    ResolveEffect(db, txn, id);
  }

  /** An acknowledgement that comes first: on every page the server's id takes the
      echo's place among the room's rows, at the same depth. */
  lemma PromotedAmongRows(db: Db, txn: string, id: string, room: string, before: Option<int>)
    requires txn in db.pending && id !in db.events && db.pending[txn].echo in db.events
    ensures var echo, db' := db.pending[txn].echo, ResolveSend(db, txn, id);
            var d := db.events[echo].ev.depth;
            PageRanks(db', room, before)
            == if Rank(d, echo) in PageRanks(db, room, before)
               then PageRanks(db, room, before) - {Rank(d, echo)} + {Rank(d, id)} else PageRanks(db, room, before)
  {
    hide IsCarriedOver;
    ResolveEffect(db, txn, id);
  }

  // --- What a page holds ---------------------------------------------------------------------

  /** The rows of the set that sort above `q`. */
  ghost function Above(ranks: set<Rank>, q: Rank): set<Rank>
  {
    set x | x in ranks && Below(q, x)
  }

  lemma {:induction false} AboveIsRest(t: seq<Rank>, i: nat)
    requires Ascending(t) && i < |t|
    ensures Ascending(t[i + 1..]) && forall x :: x in t[i + 1..] <==> x in t && Below(t[i], x)
  {
    forall x ensures x in t[i + 1..] <==> x in t && Below(t[i], x) {
      if x in t && Below(t[i], x) {
        var j :| 0 <= j < |t| && t[j] == x;
        if j <= i {
          BelowAsymmetric(t[i], x);
          BelowIrreflexive(x);
        }
        assert t[i + 1..][j - i - 1] == x;
      }
    }
  }

  lemma NewestIff(t: seq<Rank>, limit: nat, i: nat)
    requires Ascending(t) && i < |t|
    ensures t[i] in Newest(t, limit) <==> |t| - i - 1 < limit
  {
    hide Ascending;
    if |t| > limit {
      var k := |t| - limit;
      if i >= k {
        assert t[k..][i - k] == t[i];
      } else if t[i] in t[k..] {
        var j: nat :| j < limit && t[k..][j] == t[i];
        AscendingPositions(t, i, k + j);
      }
    }
  }

  lemma AboveCount(ranks: set<Rank>, i: nat)
    requires i < |Ordered(ranks)|
    ensures |Above(ranks, Ordered(ranks)[i])| == |Ordered(ranks)| - i - 1
  {
    hide Ordered, Below;
    var t := Ordered(ranks);
    AboveIsRest(t, i);
    AscendingUnique(Ordered(Above(ranks, t[i])), t[i + 1..]);
  }

  /** A page holds a row if and only if it is eligible and fewer than `limit` of the
      eligible rows sort above it. */
  lemma OnPageIff(db: Db, room: string, limit: nat, before: Option<int>, q: Rank)
    ensures q in Page(db, room, limit, before) <==>
            q in PageRanks(db, room, before) && |Above(PageRanks(db, room, before), q)| < limit
  {
    hide PageRanks, Ordered, Above, Ascending, Newest;
    var ranks := PageRanks(db, room, before);
    var t := Ordered(ranks);
    NewestFrom(t, limit);
    if q in t {
      var i: nat :| i < |t| && t[i] == q;
      AboveCount(ranks, i);
      NewestIff(t, limit, i);
    }
  }

  lemma NewestFrom(t: seq<Rank>, limit: nat)
    ensures forall x | x in Newest(t, limit) :: x in t
  {
  }

  /** The acknowledged row is on a page if and only if fewer than `limit` rows of the
      room, besides the echo, sort above its new id. */
  lemma PromotedOnPageIff(db: Db, txn: string, id: string, room: string, limit: nat, before: Option<int>)
    requires txn in db.pending && id !in db.events && db.pending[txn].echo in db.events
    requires Rank(db.events[db.pending[txn].echo].ev.depth, db.pending[txn].echo) in PageRanks(db, room, before)
    ensures var echo, db' := db.pending[txn].echo, ResolveSend(db, txn, id);
            var d := db.events[echo].ev.depth;
            Rank(d, id) in Page(db', room, limit, before)
            <==> |Above(PageRanks(db, room, before) - {Rank(d, echo)}, Rank(d, id))| < limit
  {
    hide PageRanks, ResolveSend, Page;
    var echo, db' := db.pending[txn].echo, ResolveSend(db, txn, id);
    var d := db.events[echo].ev.depth;
    var ranks := PageRanks(db, room, before);
    PromotedAmongRows(db, txn, id, room, before);
    OnPageIff(db', room, limit, before, Rank(d, id));
    BelowIrreflexive(Rank(d, id));
    assert Above(PageRanks(db', room, before), Rank(d, id)) == Above(ranks - {Rank(d, echo)}, Rank(d, id));
  }

  /** So it is on every page the echo was on, unless a row at the same depth sorts
      between the server's id and the echo's. */
  lemma PromotedStaysOnPage(db: Db, txn: string, id: string, room: string, limit: nat, before: Option<int>)
    requires txn in db.pending && id !in db.events && db.pending[txn].echo in db.events
    requires var echo := db.pending[txn].echo; Rank(db.events[echo].ev.depth, echo) in Page(db, room, limit, before)
    requires forall e | e in db.events && e != db.pending[txn].echo
               && db.events[e].ev.depth == db.events[db.pending[txn].echo].ev.depth ::
               db.events[e].ev.roomId == room && TextLess(id, e) ==> TextLess(db.pending[txn].echo, e)
    ensures Rank(db.events[db.pending[txn].echo].ev.depth, id) in Page(ResolveSend(db, txn, id), room, limit, before)
  {
    hide ResolveSend, Page;
    var echo := db.pending[txn].echo;
    var d, ranks := db.events[echo].ev.depth, PageRanks(db, room, before);
    OnPageIff(db, room, limit, before, Rank(d, echo));
    PromotedOnPageIff(db, txn, id, room, limit, before);
    FewerAbove(Above(ranks - {Rank(d, echo)}, Rank(d, id)), Above(ranks, Rank(d, echo)));
  }

  lemma FewerAbove(a: set<Rank>, b: set<Rank>)
    requires a <= b
    ensures |a| <= |b|
  {
    assert b == a + (b - a);
  }

  function Neighbour(room: string): Row
  {
    NewRow(Event("$a", room, "", Message, None, 0, 1, ToWire("$a", room, "", Message, 0, 1, TextContent(""))))
  }

  /** An echo, and a row that sync brought to the same depth. */
  function Tied(room: string): Db
  {
    Db(map["$local-" := EchoRow("$local-", room, "", "", 0, 1), "$a" := Neighbour(room)], map[],
       map["t" := Pending(room, "", "$local-", 0)], None)
  }

  lemma RanksOfTied(room: string)
    ensures PageRanks(Tied(room), room, None) == {Rank(1, "$a"), Rank(1, "$local-")}
    ensures Tied(room).events.Keys == {"$a", "$local-"} && Tied(room).events["$local-"].ev.depth == 1
  {
    var db := Tied(room);
    assert db.events.Keys == {"$a", "$local-"};
    assert "$local-" != "$a" by { assert "$local-"[1] != "$a"[1]; }
    forall q ensures q in PageRanks(db, room, None) <==> q in {Rank(1, "$a"), Rank(1, "$local-")} {
      assert q in {Rank(1, "$a"), Rank(1, "$local-")} ==> q.id in db.events && OnPage(db.events[q.id], room, None);
    }
  }

  lemma TiedOrder()
    ensures Below(Rank(1, "$a"), Rank(1, "$local-")) && Below(Rank(1, "$Z"), Rank(1, "$a"))
  {
    CharsDecide("$a", "$local-");
    CharsDecide("$Z", "$a");
  }

  /** With one it need not be: the echo is the newest row, another stands at the same
      depth, and the acknowledgement hands the newest place to that one. */
  lemma TieTakesPage(room: string)
    ensures Rank(1, "$local-") in Page(Tied(room), room, 1, None)
    ensures Rank(1, "$Z") !in Page(ResolveSend(Tied(room), "t", "$Z"), room, 1, None)
  {
    RanksOfTied(room);
    TiedOrder();
    PendingOfTied(room);
    hide PageRanks, Tied, Below, ResolveSend, Page;
    var a, l, z := Rank(1, "$a"), Rank(1, "$local-"), Rank(1, "$Z");
    BelowAsymmetric(a, l);
    BelowIrreflexive(l);
    assert Above({a, l}, l) == {};
    OnPageIff(Tied(room), room, 1, None, l);
    PromotedOnPageIff(Tied(room), "t", "$Z", room, 1, None);
    assert {a, l} - {l} == {a} by { assert "$local-"[1] != "$a"[1]; }
    assert Above({a}, z) == {a};
  }

  lemma PendingOfTied(room: string)
    ensures "t" in Tied(room).pending && Tied(room).pending["t"].echo == "$local-"
    ensures "$Z" !in Tied(room).events && "$local-" in Tied(room).events
  {
    assert Tied(room).events.Keys == {"$a", "$local-"};
    assert "$Z"[1] != "$a"[1] && "$Z"[1] != "$local-"[1];
  }

  lemma CharsDecide(a: string, b: string)
    requires |a| > 1 && |b| > 1 && a[0] == b[0] && a[1] < b[1]
    ensures TextLess(a, b)
  {
    assert a[1..][0] == a[1] && b[1..][0] == b[1];
  }

  // --- The room list --------------------------------------------------------------------------

  ghost predicate HasState(events: map<string, Row>, room: string)
  {
    exists id :: id in events && events[id].ev.stateKey.Some? && events[id].ev.roomId == room
  }

  /** The greatest time stamp of the room's rows, 0 when it has none. */
  ghost predicate LastActive(events: map<string, Row>, room: string, ts: int)
  {
    && (forall id | id in events && events[id].ev.roomId == room :: events[id].ev.ts <= ts)
    && (if exists id :: id in events && events[id].ev.roomId == room
        then exists id :: id in events && events[id].ev.roomId == room && events[id].ev.ts == ts
        else ts == 0)
  }

  ghost predicate Listed(rooms: seq<Summary>, room: string)
  {
    exists i :: 0 <= i < |rooms| && rooms[i].room == room
  }

  predicate Before(a: Summary, b: Summary)
  {
    a.lastActivity > b.lastActivity || (a.lastActivity == b.lastActivity && TextLess(a.room, b.room))
  }

  /** The list is strictly in order, most recent first and then by room id, so no
      room is in it twice; each entry is a scan of its room. */
  ghost predicate InOrder(db: Db, rooms: seq<Summary>)
  {
    && (forall i, j | 0 <= i < j < |rooms| :: Before(rooms[i], rooms[j]))
    && (forall i | 0 <= i < |rooms| ::
          rooms[i] == Summarise(db, rooms[i].room) && LastActive(db.events, rooms[i].room, rooms[i].lastActivity))
    && (forall room :: Listed(rooms, room) <==> room in T.Rooms(db))
  }

  lemma ActivityIsLast(db: Db, room: string)
    ensures LastActive(db.events, room, LastActivity(db, room))
  {
    var times := ActivityIn(db.events, room);
    forall id | id in db.events && db.events[id].ev.roomId == room
      ensures db.events[id].ev.ts <= LastActivity(db, room)
    {
      assert Rank(db.events[id].ev.ts, id) in times;
    }
    if id :| id in db.events && db.events[id].ev.roomId == room {
      assert Rank(db.events[id].ev.ts, id) in times;
      var q :| q in times && q.n == Highest(times);
      assert q.id in db.events && db.events[q.id].ev.roomId == room && db.events[q.id].ev.ts == q.n;
    } else {
      assert times == {};
    }
  }

  lemma ListedAt(db: Db, i: nat)
    requires i < |ListRooms(db)|
    ensures var s, q := ListRooms(db)[i], Ordered(RoomRanks(db))[i];
            && s == Summarise(db, s.room) && s.room in T.Rooms(db) && q == Rank(-s.lastActivity, s.room)
  {
    hide LastActivity;
    var q := Ordered(RoomRanks(db))[i];
    assert q in Ordered(RoomRanks(db)) && q in RoomRanks(db);
  }

  lemma ListIsInOrder(db: Db)
    ensures InOrder(db, ListRooms(db))
  {
    hide Summarise, LastActivity, LastActive, Ordered, ListRooms, RoomRanks, TextLess;
    var rooms := ListRooms(db);
    forall i: nat | i < |rooms|
      ensures rooms[i] == Summarise(db, rooms[i].room) && LastActive(db.events, rooms[i].room, rooms[i].lastActivity)
    {
      ListedAt(db, i);
      SummaryActivity(db, rooms[i].room);
      ActivityIsLast(db, rooms[i].room);
    }
    forall i: nat, j: nat | i < j < |rooms| ensures Before(rooms[i], rooms[j]) {
      ListedAt(db, i);
      ListedAt(db, j);
      RanksAscend(db, i, j);
    }
    forall room ensures Listed(rooms, room) <==> room in T.Rooms(db) {
      if room in T.Rooms(db) {
        var i := ListedSomewhere(db, room);
      }
      if i: nat :| i < |rooms| && rooms[i].room == room {
        ListedAt(db, i);
      }
    }
  }

  lemma SummaryActivity(db: Db, room: string)
    ensures Summarise(db, room).lastActivity == LastActivity(db, room) && Summarise(db, room).room == room
  {
    hide LastActivity;
  }

  lemma RanksAscend(db: Db, i: nat, j: nat)
    requires i < j < |ListRooms(db)|
    ensures Below(Ordered(RoomRanks(db))[i], Ordered(RoomRanks(db))[j])
  {
    hide Below, RoomRanks;
  }

  lemma ListedSomewhere(db: Db, room: string) returns (i: nat)
    requires room in T.Rooms(db)
    ensures i < |ListRooms(db)| && ListRooms(db)[i].room == room
  {
    hide LastActivity;
    var q := Rank(-LastActivity(db, room), room);
    assert q in RoomRanks(db) && q in Ordered(RoomRanks(db));
    i :| i < |Ordered(RoomRanks(db))| && Ordered(RoomRanks(db))[i] == q;
  }

  lemma RoomsHaveState(db: Db, room: string)
    requires StateIsArgmax(db)
    ensures room in T.Rooms(db) <==> HasState(db.events, room)
  {
    if room in T.Rooms(db) {
      var k :| k in db.roomState && k.room == room;
      assert Holds(db, k, db.roomState[k].eventId);
    }
    if id :| id in db.events && db.events[id].ev.stateKey.Some? && db.events[id].ev.roomId == room {
      assert Holds(db, StateKey(room, db.events[id].ev.ty, db.events[id].ev.stateKey.value), id);
    }
  }

  // --- Reading state ----------------------------------------------------------------------------

  /** Event `id` is a deepest logged one of the room, type and key. */
  ghost predicate DeepestOf(events: map<string, Row>, room: string, ty: EventType, key: string, id: string)
  {
    && id in events && events[id].ev.roomId == room && events[id].ev.ty == ty && events[id].ev.stateKey == Some(key)
    && forall other | other in events && events[other].ev.roomId == room && events[other].ev.ty == ty
         && events[other].ev.stateKey == Some(key) :: events[other].ev.depth <= events[id].ev.depth
  }

  /** A state read gives a deepest logged event of its room, type and key, and
      nothing if and only if there is none. */
  lemma StateRead(db: Db, room: string, ty: EventType, key: string)
    requires StateIsArgmax(db) && RowsAgree(db)
    ensures var r := ReadState(db, StateKey(room, ty, key));
            && r.Ok?
            && (r.value.None? <==> forall id | id in db.events ::
                  db.events[id].ev.roomId != room || db.events[id].ev.ty != ty
                  || db.events[id].ev.stateKey != Some(key))
            && (r.value.Some? ==>
                  && r.value.value.sendState == Confirmed && r.value.value.decrypted.None?
                  && !r.value.value.decryptFailed
                  && exists id :: DeepestOf(db.events, room, ty, key, id) && r.value.value.event == db.events[id].ev)
  {
    hide FromWire;
    var k := StateKey(room, ty, key);
    if k in db.roomState {
      var id := db.roomState[k].eventId;
      assert Holds(db, k, id);
      forall other | other in db.events && Targets(db.events[other].ev, k)
        ensures db.events[other].ev.depth <= db.events[id].ev.depth
      {
        assert Holds(db, k, other);
      }
      assert DeepestOf(db.events, room, ty, key, id);
    }
    forall id | id in db.events && Targets(db.events[id].ev, k) ensures k in db.roomState {
      assert Holds(db, k, id);
    }
  }

  // --- The inbound stream -----------------------------------------------------------------------

  /** The item tells what its row says. */
  predicate TellsOf(item: MlsItem, row: Row)
  {
    && item.id == row.ev.eventId && item.room == row.ev.roomId && item.sender == row.ev.sender
    && match item
       case MessageItem(_, _, _, cipher) =>
         row.ev.ty == Encrypted && row.ev.payload.content.ciphertext == Some(cipher)
       case CommitItem(_, _, _, commit) => row.ev.ty == MlsCommit && row.ev.payload.content.commit == Some(commit)
  }

  /** An untried ciphertext or commit that carries its material. */
  predicate ToHandle(row: Row)
  {
    && row.state == Untried
    && ((row.ev.ty == Encrypted && row.ev.payload.content.ciphertext.Some?)
        || (row.ev.ty == MlsCommit && row.ev.payload.content.commit.Some?))
  }

  /** The stream is exactly the rows to handle, of all rooms, by depth and then by
      id. */
  ghost predicate StreamOf(db: Db, items: seq<MlsItem>)
  {
    && (forall i | 0 <= i < |items| ::
          items[i].id in db.events && ToHandle(db.events[items[i].id]) && TellsOf(items[i], db.events[items[i].id]))
    && (forall id | id in db.events && ToHandle(db.events[id]) :: exists i :: 0 <= i < |items| && items[i].id == id)
    && (forall i, j | 0 <= i < j < |items| ::
          var a, b := db.events[items[i].id].ev.depth, db.events[items[j].id].ev.depth;
          a < b || (a == b && TextLess(items[i].id, items[j].id)))
  }

  lemma ItemTells(row: Row)
    ensures Unhandled(row) && ItemOf(row).Some? <==> ToHandle(row)
    ensures ItemOf(row).Some? ==> TellsOf(ItemOf(row).value, row)
  {
  }

  lemma StreamAt(db: Db, i: nat)
    requires RowsAgree(db) && i < |PendingMls(db)|
    ensures var item, q := PendingMls(db)[i], Ordered(MlsRanks(db))[i];
            && item.id in db.events && q == Rank(db.events[item.id].ev.depth, item.id)
            && ToHandle(db.events[item.id]) && TellsOf(item, db.events[item.id])
  {
    hide Agrees, ToHandle, TellsOf, Unhandled, ItemOf;
    var q := Ordered(MlsRanks(db))[i];
    assert q in Ordered(MlsRanks(db)) && q in MlsRanks(db);
    ItemTells(db.events[q.id]);
    ItemIds(db.events[q.id]);
  }

  lemma ItemIds(row: Row)
    ensures ItemOf(row).Some? ==> ItemOf(row).value.id == row.ev.eventId
  {
  }

  lemma StreamIsExact(db: Db)
    requires RowsAgree(db)
    ensures StreamOf(db, PendingMls(db))
  {
    hide RowsAgree, PendingMls, ToHandle, TellsOf, MlsRanks, Ordered, TextLess;
    var items := PendingMls(db);
    forall i: nat | i < |items|
      ensures items[i].id in db.events && ToHandle(db.events[items[i].id])
               && TellsOf(items[i], db.events[items[i].id])
    {
      StreamAt(db, i);
    }
    forall id | id in db.events && ToHandle(db.events[id]) ensures exists i :: 0 <= i < |items| && items[i].id == id {
      var i := StreamReaches(db, id);
    }
    forall i: nat, j: nat | i < j < |items|
      ensures var a, b := db.events[items[i].id].ev.depth, db.events[items[j].id].ev.depth;
              a < b || (a == b && TextLess(items[i].id, items[j].id))
    {
      StreamAt(db, i);
      StreamAt(db, j);
      assert Below(Ordered(MlsRanks(db))[i], Ordered(MlsRanks(db))[j]);
    }
  }

  lemma StreamReaches(db: Db, id: string) returns (i: nat)
    requires RowsAgree(db) && id in db.events && ToHandle(db.events[id])
    ensures i < |PendingMls(db)| && PendingMls(db)[i].id == id
  {
    hide RowsAgree, ToHandle, ItemOf, Unhandled;
    ItemTells(db.events[id]);
    var q := Rank(db.events[id].ev.depth, id);
    assert q in MlsRanks(db) && q in Ordered(MlsRanks(db));
    i :| i < |Ordered(MlsRanks(db))| && Ordered(MlsRanks(db))[i] == q;
    StreamAt(db, i);
  }
}
