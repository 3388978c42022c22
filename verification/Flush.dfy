/** One pass over the outbound queue as a function of the tables, the engine and
    the server's replies, and what it leaves queued. */
module Flush {
  import opened Base
  import opened Order
  import opened Mls
  import opened Events
  import opened T = Tables

  /** The three ways a transmission ends for the client. */
  datatype Reply = Acked(id: string) | Transient | Rejected

  /** What the environment decides about one send: whether the engine answers if
      the room's group is held, how encrypting fares, and the reply to the
      transmission. */
  datatype Try = Try(ask: bool, io: Io, reply: Reply)

  datatype Attempt = Attempt(txn: string, room: string, ty: EventType, content: Content)

  datatype Outcome = Outcome(db: Db, engine: Engine, changed: bool, sent: seq<Attempt>)

  /** `mls` is false when the session has no engine. A pass whose tries run out
      finds itself offline. */
  function TryNow(ts: seq<Try>): Try
  {
    if ts == [] then Try(true, Works, Transient) else ts[0]
  }

  function TryLater(ts: seq<Try>): seq<Try>
  {
    if ts == [] then [] else ts[1..]
  }

  function TryAt(ts: seq<Try>, i: nat): Try
  {
    if i < |ts| then ts[i] else Try(true, Works, Transient)
  }

  predicate CanEncrypt(mls: bool, e: Engine, room: string)
  {
    mls && HasGroup(e, room)
  }

  /** An encrypted room whose group is not held: its sends wait. */
  predicate Held(mls: bool, e: Engine, db: Db, room: string)
  {
    !CanEncrypt(mls, e, room) && IsRoomEncrypted(db, room)
  }

  /** This send waits: its room is encrypted, and the engine says that it does not
      hold the group. A question that fails is an encryption failure instead. */
  predicate Waits(mls: bool, e: Engine, db: Db, q: Queued, t: Try)
  {
    Held(mls, e, db, q.room) && (mls ==> t.ask)
  }

  function Deliver(o: Outcome, a: Attempt, reply: Reply): Outcome
  {
    match reply
    case Acked(id) => Outcome(ResolveSend(o.db, a.txn, id), o.engine, true, [a])
    case Rejected => Outcome(FailSend(o.db, a.txn), o.engine, true, [a])
    case Transient => Outcome(o.db, o.engine, false, [a])
  }

  /** One queued send. `stop` in the second component ends the pass. */
  function FlushOne(db: Db, e: Engine, mls: bool, q: Queued, t: Try): (Outcome, bool)
  {
    if mls && !t.ask then (Outcome(FailSend(db, q.txn), e, true, []), false)
    else if CanEncrypt(mls, e, q.room) then
      var (e', c) := Encrypt(e, q.room, q.body, t.io);
      if c.None? then (Outcome(FailSend(db, q.txn), e', true, []), false)
      else (Deliver(Outcome(db, e', false, []), Attempt(q.txn, q.room, Encrypted, SealedContent(c.value)), t.reply),
            t.reply.Transient?)
    else if IsRoomEncrypted(db, q.room) then (Outcome(db, e, false, []), false)
    else (Deliver(Outcome(db, e, false, []), Attempt(q.txn, q.room, Message, TextContent(q.body)), t.reply),
          t.reply.Transient?)
  }

  function FlushItems(db: Db, e: Engine, mls: bool, qs: seq<Queued>, ts: seq<Try>): Outcome
    decreases |qs|
  {
    if qs == [] then Outcome(db, e, false, [])
    else
      var (one, stop) := FlushOne(db, e, mls, qs[0], TryNow(ts));
      if stop then one
      else
        var rest := FlushItems(one.db, one.engine, mls, qs[1..], TryLater(ts));
        Outcome(rest.db, rest.engine, one.changed || rest.changed, one.sent + rest.sent)
  }

  /** The same pass, carrying along what it has changed and sent so far. */
  function FlushFrom(db: Db, e: Engine, mls: bool, qs: seq<Queued>, ts: seq<Try>, changed: bool,
      sent: seq<Attempt>): Outcome
    decreases |qs|
  {
    if qs == [] then Outcome(db, e, changed, sent)
    else
      var (one, stop) := FlushOne(db, e, mls, qs[0], TryNow(ts));
      if stop then Outcome(one.db, one.engine, changed || one.changed, sent + one.sent)
      else FlushFrom(one.db, one.engine, mls, qs[1..], TryLater(ts), changed || one.changed, sent + one.sent)
  }

  lemma {:induction false} FlushFromAccumulates(db: Db, e: Engine, mls: bool, qs: seq<Queued>, ts: seq<Try>,
      changed: bool, sent: seq<Attempt>)
    ensures var rest := FlushItems(db, e, mls, qs, ts);
            FlushFrom(db, e, mls, qs, ts, changed, sent) == Outcome(rest.db, rest.engine, changed || rest.changed,
              sent + rest.sent)
    decreases |qs|
  {
    hide FlushOne, TryLater, TryNow;
    if qs != [] {
      var (one, stop) := FlushOne(db, e, mls, qs[0], TryNow(ts));
      if !stop {
        var ts' := TryLater(ts);
        FlushFromAccumulates(one.db, one.engine, mls, qs[1..], ts', changed || one.changed, sent + one.sent);
        var rest := FlushItems(one.db, one.engine, mls, qs[1..], ts').sent;
        assert sent + (one.sent + rest) == (sent + one.sent) + rest;
      }
    }
  }

  function FlushPending(db: Db, e: Engine, mls: bool, ts: seq<Try>): Outcome
  {
    FlushItems(db, e, mls, PendingSends(db), ts)
  }

  // --- What a pass keeps ---------------------------------------------------------

  predicate Distinct(qs: seq<Queued>)
  {
    forall i, j | 0 <= i < j < |qs| :: qs[i].txn != qs[j].txn
  }

  ghost predicate AllQueued(db: Db, qs: seq<Queued>)
  {
    && Distinct(qs)
    && forall i | 0 <= i < |qs| ::
         && qs[i].txn in db.pending
         && db.pending[qs[i].txn].room == qs[i].room
         && db.pending[qs[i].txn].body == qs[i].body
  }

  /** This send ends the pass: it is transmitted and the reply is transient. */
  predicate Stops(mls: bool, e: Engine, db: Db, q: Queued, t: Try)
  {
    && (mls ==> t.ask)
    && (if CanEncrypt(mls, e, q.room) then t.io.Works? else !IsRoomEncrypted(db, q.room))
    && t.reply.Transient?
  }

  /** How many of the queue's sends come before the first that ends the pass. */
  function Reached(db: Db, e: Engine, mls: bool, qs: seq<Queued>, ts: seq<Try>): (k: nat)
    ensures k <= |qs|
  {
    if qs == [] || Stops(mls, e, db, qs[0], TryNow(ts)) then 0
    else 1 + Reached(db, e, mls, qs[1..], TryLater(ts))
  }

  /** The same groups are held and the same rooms are encrypted. */
  predicate SameRooms(db: Db, e: Engine, db': Db, e': Engine)
  {
    db'.roomState == db.roomState && e'.device.groups.Keys == e.device.groups.Keys
  }

  lemma {:induction false} ReachedStable(db: Db, e: Engine, db': Db, e': Engine, mls: bool, qs: seq<Queued>,
      ts: seq<Try>)
    requires SameRooms(db, e, db', e')
    ensures Reached(db', e', mls, qs, ts) == Reached(db, e, mls, qs, ts)
  {
    if qs != [] {
      assert Stops(mls, e', db', qs[0], TryNow(ts)) == Stops(mls, e, db, qs[0], TryNow(ts));
      ReachedStable(db, e, db', e', mls, qs[1..], TryLater(ts));
    }
  }

  lemma OneStep(db: Db, e: Engine, mls: bool, q: Queued, t: Try)
    requires q.txn in db.pending
    ensures var (one, stop) := FlushOne(db, e, mls, q, t);
            && stop == Stops(mls, e, db, q, t)
            && SameRooms(db, e, one.db, one.engine)
            && one.db.pending == (if one.changed then db.pending - {q.txn} else db.pending)
            && one.changed == (!Waits(mls, e, db, q, t) && !stop)
            && (stop ==> !Waits(mls, e, db, q, t))
            && (!one.changed ==> one.db == db)
            && forall room :: Held(mls, one.engine, one.db, room) == Held(mls, e, db, room)
  {
  }

  /** Going on leaves the rest of the queue as it was. */
  lemma TailQueued(db: Db, e: Engine, mls: bool, qs: seq<Queued>, t: Try)
    requires AllQueued(db, qs) && qs != []
    ensures AllQueued(FlushOne(db, e, mls, qs[0], t).0.db, qs[1..])
  {
    hide FlushOne, Held, SameRooms, Waits, Stops;
    OneStep(db, e, mls, qs[0], t);
    assert forall i | 0 <= i < |qs[1..]| :: qs[1..][i] == qs[i + 1];
  }

  /** A pass only takes rows away from the queue, each of a send it reached, and says
      truthfully whether it did. */
  lemma {:induction false} PassShrinks(db: Db, e: Engine, mls: bool, qs: seq<Queued>, ts: seq<Try>)
    requires AllQueued(db, qs)
    ensures var out := FlushItems(db, e, mls, qs, ts);
            && (forall txn | txn in out.db.pending :: txn in db.pending && out.db.pending[txn] == db.pending[txn])
            && (out.changed <==> out.db.pending != db.pending)
            && (!out.changed ==> out.db == db)
    decreases |qs|
  {
    hide FlushOne, Held, AllQueued, SameRooms, Waits, Stops;
    if qs != [] {
      HeadQueued(db, qs);
      var (one, stop) := FlushOne(db, e, mls, qs[0], TryNow(ts));
      OneStep(db, e, mls, qs[0], TryNow(ts));
      if !stop {
        TailQueued(db, e, mls, qs, TryNow(ts));
        PassShrinks(one.db, one.engine, mls, qs[1..], TryLater(ts));
        var out := FlushItems(db, e, mls, qs, ts);
        assert one.changed ==> qs[0].txn in db.pending && qs[0].txn !in out.db.pending;
      }
    }
  }

  lemma HeadQueued(db: Db, qs: seq<Queued>)
    requires AllQueued(db, qs) && qs != []
    ensures qs[0].txn in db.pending && forall i | 0 < i < |qs| :: qs[i].txn != qs[0].txn
  {
  }

  lemma {:induction false} PassTakesReached(db: Db, e: Engine, mls: bool, qs: seq<Queued>, ts: seq<Try>)
    requires AllQueued(db, qs)
    ensures var out := FlushItems(db, e, mls, qs, ts);
            forall txn | txn in db.pending && txn !in out.db.pending ::
              exists i :: 0 <= i < Reached(db, e, mls, qs, ts) && qs[i].txn == txn
    decreases |qs|
  {
    hide FlushOne, Held, AllQueued, SameRooms, Waits, Stops;
    if qs != [] {
      HeadQueued(db, qs);
      var (one, stop) := FlushOne(db, e, mls, qs[0], TryNow(ts));
      OneStep(db, e, mls, qs[0], TryNow(ts));
      if !stop {
        var tail, ts' := qs[1..], TryLater(ts);
        TailQueued(db, e, mls, qs, TryNow(ts));
        PassTakesReached(one.db, one.engine, mls, tail, ts');
        ReachedStable(db, e, one.db, one.engine, mls, tail, ts');
        var out, k := FlushItems(db, e, mls, qs, ts), Reached(db, e, mls, qs, ts);
        forall txn | txn in db.pending && txn !in out.db.pending ensures exists i :: 0 <= i < k && qs[i].txn == txn {
          if txn in one.db.pending {
            var i :| 0 <= i < k - 1 && tail[i].txn == txn;
            assert qs[i + 1].txn == txn;
          } else {
            assert qs[0].txn == txn;
          }
        }
      }
    }
  }

  lemma {:induction false} PassLeaves(db: Db, e: Engine, mls: bool, qs: seq<Queued>, ts: seq<Try>)
    requires AllQueued(db, qs)
    ensures var out := FlushItems(db, e, mls, qs, ts);
            forall i | 0 <= i < |qs| ::
              qs[i].txn in out.db.pending
              <==> i >= Reached(db, e, mls, qs, ts) || Waits(mls, e, db, qs[i], TryAt(ts, i))
    decreases |qs|
  {
    hide FlushOne, Held, SameRooms;
    if qs != [] {
      var (one, stop) := FlushOne(db, e, mls, qs[0], TryNow(ts));
      OneStep(db, e, mls, qs[0], TryNow(ts));
      if !stop {
        var tail, ts' := qs[1..], TryLater(ts);
        TailQueued(db, e, mls, qs, TryNow(ts));
        PassLeaves(one.db, one.engine, mls, tail, ts');
        PassShrinks(one.db, one.engine, mls, tail, ts');
        PassTakesReached(one.db, one.engine, mls, tail, ts');
        ReachedStable(db, e, one.db, one.engine, mls, tail, ts');
        var out, k := FlushItems(db, e, mls, qs, ts), Reached(db, e, mls, qs, ts);
        forall i | 0 <= i < |qs|
          ensures qs[i].txn in out.db.pending <==> i >= k || Waits(mls, e, db, qs[i], TryAt(ts, i))
        {
          assert i > 0 ==> qs[i] == tail[i - 1] && TryAt(ts, i) == TryAt(ts', i - 1);
          assert Held(mls, e, db, qs[i].room) == Held(mls, one.engine, one.db, qs[i].room);
        }
      }
    }
  }

  /** The pass empties exactly the part of the queue it got to, except for the
      rooms it holds back; it says so truthfully. */
  lemma PassRemoves(db: Db, e: Engine, mls: bool, qs: seq<Queued>, ts: seq<Try>)
    requires AllQueued(db, qs)
    ensures var out := FlushItems(db, e, mls, qs, ts);
            var k := Reached(db, e, mls, qs, ts);
            && (forall i | 0 <= i < |qs| :: qs[i].txn in out.db.pending
                  <==> i >= k || Waits(mls, e, db, qs[i], TryAt(ts, i)))
            && (forall txn | txn in out.db.pending :: txn in db.pending && out.db.pending[txn] == db.pending[txn])
            && (forall txn | txn in db.pending && txn !in out.db.pending :: exists i :: 0 <= i < k && qs[i].txn == txn)
            && (out.changed <==> out.db.pending != db.pending)
            && (!out.changed ==> out.db == db)
  {
    hide FlushItems, Reached, Waits;
    PassLeaves(db, e, mls, qs, ts);
    PassShrinks(db, e, mls, qs, ts);
    PassTakesReached(db, e, mls, qs, ts);
  }

  lemma QueueIsDistinct(db: Db)
    ensures AllQueued(db, PendingSends(db))
    ensures forall txn | txn in db.pending :: exists i :: 0 <= i < |PendingSends(db)| && PendingSends(db)[i].txn == txn
  {
    hide PendingSends;
    QueueInOrder(db);
    var q := PendingSends(db);
    forall i, j | 0 <= i < j < |q| ensures q[i].txn != q[j].txn {
      TextLessIrreflexive(q[i].txn);
    }
  }

  function InRoom(qs: seq<Queued>, room: string): seq<Queued>
  {
    if qs == [] then []
    else if qs[0].room == room then [qs[0]] + InRoom(qs[1..], room)
    else InRoom(qs[1..], room)
  }

  /** The entries of a queue still present in the table. */
  function Still(qs: seq<Queued>, db: Db): seq<Queued>
  {
    if qs == [] then []
    else if qs[0].txn in db.pending then [qs[0]] + Still(qs[1..], db)
    else Still(qs[1..], db)
  }

  ghost predicate Shrunk(db: Db, db': Db)
  {
    forall txn | txn in db'.pending :: txn in db.pending && db'.pending[txn] == db.pending[txn]
  }

  function Entries(db: Db, ranks: seq<Rank>): seq<Queued>
    requires forall i | 0 <= i < |ranks| :: ranks[i].id in db.pending
  {
    if ranks == [] then []
    else
      var p := db.pending[ranks[0].id];
      assert forall i | 0 <= i < |ranks[1..]| :: ranks[1..][i] == ranks[i + 1];
      [Queued(ranks[0].id, p.room, p.body)] + Entries(db, ranks[1..])
  }

  /** The ranks whose sends are still in the table. */
  function Keep(ranks: seq<Rank>, db: Db): seq<Rank>
  {
    if ranks == [] then []
    else if ranks[0].id in db.pending then [ranks[0]] + Keep(ranks[1..], db)
    else Keep(ranks[1..], db)
  }

  lemma {:induction false} KeepFilters(ranks: seq<Rank>, db: Db)
    requires Ascending(ranks)
    ensures Ascending(Keep(ranks, db))
    ensures forall q :: q in Keep(ranks, db) <==> q in ranks && q.id in db.pending
  {
    if ranks != [] {
      assert ranks == [ranks[0]] + ranks[1..];
      assert forall i | 0 <= i < |ranks[1..]| :: ranks[1..][i] == ranks[i + 1];
      KeepFilters(ranks[1..], db);
      var kept := Keep(ranks[1..], db);
      forall j | 0 <= j < |kept| ensures Below(ranks[0], kept[j]) {
        assert kept[j] in ranks[1..];
      }
    }
  }

  lemma {:induction false} EntriesShrink(db: Db, db': Db, ranks: seq<Rank>)
    requires Shrunk(db, db') && forall i | 0 <= i < |ranks| :: ranks[i].id in db.pending
    ensures forall i | 0 <= i < |Keep(ranks, db')| :: Keep(ranks, db')[i].id in db'.pending
    ensures Still(Entries(db, ranks), db') == Entries(db', Keep(ranks, db'))
  {
    if ranks != [] {
      assert forall i | 0 <= i < |ranks[1..]| :: ranks[1..][i] == ranks[i + 1];
      EntriesShrink(db, db', ranks[1..]);
      assert Entries(db, ranks)[1..] == Entries(db, ranks[1..]);
      var kept := Keep(ranks, db');
      if ranks[0].id in db'.pending {
        assert kept[1..] == Keep(ranks[1..], db');
      }
    }
  }

  lemma {:induction false} EntriesAt(db: Db, ranks: seq<Rank>)
    requires forall i | 0 <= i < |ranks| :: ranks[i].id in db.pending
    ensures |Entries(db, ranks)| == |ranks|
    ensures forall i | 0 <= i < |ranks| ::
              Entries(db, ranks)[i] == Queued(ranks[i].id, db.pending[ranks[i].id].room, db.pending[ranks[i].id].body)
  {
    if ranks != [] {
      var tail := ranks[1..];
      assert forall i | 0 <= i < |tail| :: tail[i] == ranks[i + 1];
      EntriesAt(db, tail);
    }
  }

  lemma QueueIsEntries(db: Db)
    ensures forall i | 0 <= i < |Ordered(QueueRanks(db))| :: Ordered(QueueRanks(db))[i].id in db.pending
    ensures PendingSends(db) == Entries(db, Ordered(QueueRanks(db)))
  {
    var ranks := Ordered(QueueRanks(db));
    forall i | 0 <= i < |ranks| ensures ranks[i] in QueueRanks(db) {
      assert ranks[i] in ranks;
    }
    EntriesAt(db, ranks);
  }

  /** The queue after a pass is the old queue without what was removed: order is
      kept. */
  lemma QueueShrinksInOrder(db: Db, db': Db)
    requires Shrunk(db, db')
    ensures PendingSends(db') == Still(PendingSends(db), db')
  {
    var ranks := Ordered(QueueRanks(db));
    QueueIsEntries(db);
    QueueIsEntries(db');
    EntriesShrink(db, db', ranks);
    KeepFilters(ranks, db');
    AscendingUnique(Keep(ranks, db'), Ordered(QueueRanks(db')));
  }

  predicate IsSuffix(after: seq<Queued>, before: seq<Queued>)
  {
    |after| <= |before| && after == before[|before| - |after|..]
  }

  /** Nothing of this room is gone behind something that stays. */
  ghost predicate GoneFromTheFront(q: seq<Queued>, db: Db, room: string)
  {
    forall a, b | 0 <= a < b < |q| && q[a].room == room && q[b].room == room ::
      q[a].txn in db.pending ==> q[b].txn in db.pending
  }

  lemma {:induction false} RoomEntries(q: seq<Queued>, db: Db, room: string)
    ensures |InRoom(Still(q, db), room)| <= |InRoom(q, room)|
    ensures forall x | x in InRoom(q, room) :: x in q
    ensures InRoom(Still(q, db), room) == InRoom(q, room) <==>
            forall i | 0 <= i < |q| && q[i].room == room :: q[i].txn in db.pending
    ensures |InRoom(Still(q, db), room)| == |InRoom(q, room)| ==> InRoom(Still(q, db), room) == InRoom(q, room)
  {
    if q != [] {
      var x, tail := q[0], q[1..];
      RoomEntries(tail, db, room);
      assert forall i | 0 <= i < |tail| :: tail[i] == q[i + 1];
      if x.txn in db.pending {
        assert Still(q, db)[1..] == Still(tail, db);
      }
      if x.room == room && x.txn in db.pending {
        assert InRoom(Still(q, db), room)[1..] == InRoom(Still(tail, db), room)
            && InRoom(q, room)[1..] == InRoom(tail, room);
      }
    }
  }

  lemma {:induction false} SuffixIff(q: seq<Queued>, db: Db, room: string)
    requires Distinct(q)
    ensures IsSuffix(InRoom(Still(q, db), room), InRoom(q, room)) <==> GoneFromTheFront(q, db, room)
  {
    if q != [] {
      var x, tail := q[0], q[1..];
      assert forall i | 0 <= i < |tail| :: tail[i] == q[i + 1];
      SuffixIff(tail, db, room);
      RoomEntries(tail, db, room);
      FrontSplits(q, db, room);
      var before, after := InRoom(tail, room), InRoom(Still(tail, db), room);
      assert x.txn in db.pending ==> Still(q, db)[1..] == Still(tail, db);
      if x.room == room && x.txn in db.pending {
        assert x !in before;
        BothGrow(x, after, before);
      } else if x.room == room {
        OneGrows(x, after, before);
      }
    }
  }

  lemma OneGrows(x: Queued, after: seq<Queued>, before: seq<Queued>)
    requires |after| <= |before|
    ensures IsSuffix(after, [x] + before) <==> IsSuffix(after, before)
  {
    assert ([x] + before)[1 + |before| - |after|..] == before[|before| - |after|..];
  }

  lemma BothGrow(x: Queued, after: seq<Queued>, before: seq<Queued>)
    requires |after| <= |before| && x !in before && (|after| == |before| ==> after == before)
    ensures IsSuffix([x] + after, [x] + before) <==> after == before
  {
    if |after| < |before| {
      assert ([x] + before)[|before| - |after|] in before && ([x] + after)[0] == x;
    }
  }

  lemma FrontSplits(q: seq<Queued>, db: Db, room: string)
    requires q != []
    ensures GoneFromTheFront(q, db, room) <==>
            && GoneFromTheFront(q[1..], db, room)
            && (q[0].room == room && q[0].txn in db.pending ==>
                  forall i | 0 <= i < |q[1..]| && q[1..][i].room == room :: q[1..][i].txn in db.pending)
  {
    var tail := q[1..];
    assert forall i | 0 <= i < |tail| :: tail[i] == q[i + 1];
    if GoneFromTheFront(tail, db, room) {
      forall a, b | 1 <= a < b < |q| && q[a].room == room && q[b].room == room && q[a].txn in db.pending
        ensures q[b].txn in db.pending
      {
        assert tail[a - 1] == q[a] && tail[b - 1] == q[b];
      }
    }
  }

  /** No send of the room that the pass got to fails on the engine's question
      behind one that waits. */
  ghost predicate NoFailureBehindWaiting(db: Db, e: Engine, mls: bool, q: seq<Queued>, ts: seq<Try>, room: string)
  {
    forall a, b | 0 <= a < b < Reached(db, e, mls, q, ts) && q[a].room == room && q[b].room == room ::
      Waits(mls, e, db, q[a], TryAt(ts, a)) ==> Waits(mls, e, db, q[b], TryAt(ts, b))
  }

  /** What a pass leaves of a room's queue is a suffix of it if and only if no
      send fails behind one that waits; so always when the engine answers, and then
      a held room keeps all it had. */
  lemma PassLeavesSuffixIff(db: Db, e: Engine, mls: bool, ts: seq<Try>, room: string)
    ensures var out := FlushPending(db, e, mls, ts);
            var before := InRoom(PendingSends(db), room);
            var after := InRoom(PendingSends(out.db), room);
            && (IsSuffix(after, before) <==> NoFailureBehindWaiting(db, e, mls, PendingSends(db), ts, room))
            && ((forall i | 0 <= i < |ts| :: ts[i].ask)
                  ==> IsSuffix(after, before) && (Held(mls, e, db, room) ==> after == before))
            && (out.changed <==> out.db.pending != db.pending)
  {
    hide FlushItems, PendingSends, Reached, IsSuffix, Waits, InRoom, Still, NoFailureBehindWaiting, GoneFromTheFront,
        Distinct;
    var q := PendingSends(db);
    var out := FlushPending(db, e, mls, ts);
    QueueIsDistinct(db);
    PassRemoves(db, e, mls, q, ts);
    QueueShrinksInOrder(db, out.db);
    SuffixIff(q, out.db, room);
    RoomEntries(q, out.db, room);
    GoneOrWaiting(db, e, mls, q, ts, out.db, room);
    AnsweredWaits(db, e, mls, q, ts, room);
    if forall i | 0 <= i < |ts| :: ts[i].ask {
      AnsweredNeverFails(db, e, mls, q, ts, room);
    }
  }

  lemma GoneOrWaiting(db: Db, e: Engine, mls: bool, q: seq<Queued>, ts: seq<Try>, db': Db, room: string)
    requires forall i | 0 <= i < |q| :: q[i].txn in db'.pending
              <==> i >= Reached(db, e, mls, q, ts) || Waits(mls, e, db, q[i], TryAt(ts, i))
    ensures GoneFromTheFront(q, db', room) <==> NoFailureBehindWaiting(db, e, mls, q, ts, room)
  {
    hide Reached, Waits, TryAt;
    if NoFailureBehindWaiting(db, e, mls, q, ts, room) {
      forall a, b | 0 <= a < b < |q| && q[a].room == room && q[b].room == room && q[a].txn in db'.pending
        ensures q[b].txn in db'.pending
      {
        assert b < Reached(db, e, mls, q, ts) ==> Waits(mls, e, db, q[a], TryAt(ts, a));
      }
    }
    if GoneFromTheFront(q, db', room) {
      forall a, b | 0 <= a < b < Reached(db, e, mls, q, ts) && q[a].room == room && q[b].room == room
          && Waits(mls, e, db, q[a], TryAt(ts, a))
        ensures Waits(mls, e, db, q[b], TryAt(ts, b))
      {
        assert q[a].txn in db'.pending;
      }
    }
  }

  lemma AnsweredNeverFails(db: Db, e: Engine, mls: bool, q: seq<Queued>, ts: seq<Try>, room: string)
    requires forall i | 0 <= i < |ts| :: ts[i].ask
    ensures NoFailureBehindWaiting(db, e, mls, q, ts, room)
  {
    hide Reached;
  }

  lemma AnsweredWaits(db: Db, e: Engine, mls: bool, q: seq<Queued>, ts: seq<Try>, room: string)
    ensures (forall i | 0 <= i < |ts| :: ts[i].ask) ==>
              forall i | 0 <= i < |q| && q[i].room == room ::
                  Waits(mls, e, db, q[i], TryAt(ts, i)) == Held(mls, e, db, room)
  {
  }

  // --- Waiting sends do not block others ----------------------------------------------

  function Busy(db: Db, e: Engine, mls: bool, qs: seq<Queued>, ts: seq<Try>): seq<Queued>
  {
    if qs == [] then []
    else
      var rest := Busy(db, e, mls, qs[1..], TryLater(ts));
      if Waits(mls, e, db, qs[0], TryNow(ts)) then rest else [qs[0]] + rest
  }

  function BusyTries(db: Db, e: Engine, mls: bool, qs: seq<Queued>, ts: seq<Try>): seq<Try>
  {
    if qs == [] then []
    else
      var rest := BusyTries(db, e, mls, qs[1..], TryLater(ts));
      if Waits(mls, e, db, qs[0], TryNow(ts)) then rest else [TryNow(ts)] + rest
  }

  lemma {:induction false} BusyStable(db: Db, e: Engine, db': Db, e': Engine, mls: bool, qs: seq<Queued>, ts: seq<Try>)
    requires SameRooms(db, e, db', e')
    ensures Busy(db', e', mls, qs, ts) == Busy(db, e, mls, qs, ts)
    ensures BusyTries(db', e', mls, qs, ts) == BusyTries(db, e, mls, qs, ts)
  {
    if qs != [] {
      assert Held(mls, e, db, qs[0].room) == Held(mls, e', db', qs[0].room);
      BusyStable(db, e, db', e', mls, qs[1..], TryLater(ts));
    }
  }

  lemma WaitingDoesNothing(db: Db, e: Engine, mls: bool, q: Queued, t: Try)
    requires Waits(mls, e, db, q, t)
    ensures FlushOne(db, e, mls, q, t) == (Outcome(db, e, false, []), false)
  {
  }

  /** A pass does exactly what it would do if the sends that wait were not queued. */
  lemma {:induction false} WaitingDoesNotBlock(db: Db, e: Engine, mls: bool, qs: seq<Queued>, ts: seq<Try>)
    requires AllQueued(db, qs)
    ensures FlushItems(db, e, mls, qs, ts) == FlushItems(db, e, mls, Busy(db, e, mls, qs, ts),
             BusyTries(db, e, mls, qs, ts))
    decreases |qs|
  {
    hide FlushOne, Waits;
    if qs != [] {
      var (one, stop) := FlushOne(db, e, mls, qs[0], TryNow(ts));
      OneStep(db, e, mls, qs[0], TryNow(ts));
      var tail := qs[1..];
      assert forall i | 0 <= i < |tail| :: tail[i] == qs[i + 1];
      if Waits(mls, e, db, qs[0], TryNow(ts)) {
        WaitingDoesNothing(db, e, mls, qs[0], TryNow(ts));
        WaitingDoesNotBlock(db, e, mls, tail, TryLater(ts));
      } else if !stop {
        WaitingDoesNotBlock(one.db, one.engine, mls, tail, TryLater(ts));
        BusyStable(db, e, one.db, one.engine, mls, tail, TryLater(ts));
      }
    }
  }

  // --- No plaintext into an encrypted room ------------------------------------------

  /** What may be transmitted for a queued send, given what is held and known. */
  ghost predicate Fair(db: Db, e: Engine, mls: bool, a: Attempt)
  {
    && a.txn in db.pending && a.room == db.pending[a.txn].room
    && (if CanEncrypt(mls, e, a.room)
        then a.ty == Encrypted && exists c: Sealed ::
          IsSealed(a.content, c) && c.room == a.room && c.text == Some(db.pending[a.txn].body)
        else a.ty == Message && !IsRoomEncrypted(db, a.room) && IsText(a.content, db.pending[a.txn].body))
  }

  ghost predicate AllFair(db: Db, e: Engine, mls: bool, sent: seq<Attempt>)
  {
    forall i | 0 <= i < |sent| :: Fair(db, e, mls, sent[i])
  }

  lemma FairStable(db: Db, e: Engine, db': Db, e': Engine, mls: bool, a: Attempt)
    requires Fair(db', e', mls, a)
    requires db'.roomState == db.roomState && e'.device.groups.Keys == e.device.groups.Keys
    requires Shrunk(db, db')
    ensures Fair(db, e, mls, a)
  {
    assert CanEncrypt(mls, e', a.room) == CanEncrypt(mls, e, a.room);
    assert IsRoomEncrypted(db', a.room) == IsRoomEncrypted(db, a.room);
  }

  lemma FlushOneFair(db: Db, e: Engine, mls: bool, q: Queued, t: Try)
    requires q.txn in db.pending && db.pending[q.txn].room == q.room && db.pending[q.txn].body == q.body
    ensures AllFair(db, e, mls, FlushOne(db, e, mls, q, t).0.sent)
  {
    var one := FlushOne(db, e, mls, q, t).0;
    if CanEncrypt(mls, e, q.room) && one.sent != [] {
      var c := Encrypt(e, q.room, q.body, t.io).1.value;
      assert one.sent == [Attempt(q.txn, q.room, Encrypted, SealedContent(c))] && IsSealed(one.sent[0].content, c);
    }
  }

  /** Every plaintext attempt of a pass is for a room without the encryption
      marker and without a held group; every other one is sealed for the room. */
  lemma {:induction false} PlaintextOnlyInPlainRooms(db: Db, e: Engine, mls: bool, qs: seq<Queued>, ts: seq<Try>)
    requires AllQueued(db, qs)
    ensures AllFair(db, e, mls, FlushItems(db, e, mls, qs, ts).sent)
    decreases |qs|
  {
    if qs != [] {
      var (one, stop) := FlushOne(db, e, mls, qs[0], TryNow(ts));
      OneStep(db, e, mls, qs[0], TryNow(ts));
      FlushOneFair(db, e, mls, qs[0], TryNow(ts));
      if !stop {
        var tail, ts' := qs[1..], TryLater(ts);
        assert forall i | 0 <= i < |tail| :: tail[i] == qs[i + 1];
        PlaintextOnlyInPlainRooms(one.db, one.engine, mls, tail, ts');
        var rest := FlushItems(one.db, one.engine, mls, tail, ts').sent;
        forall i | 0 <= i < |rest| ensures Fair(db, e, mls, rest[i]) {
          FairStable(db, e, one.db, one.engine, mls, rest[i]);
        }
      }
    }
  }
}
