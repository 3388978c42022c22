/** A member device keeps up with its rooms: however the histories of several
    rooms and the Welcomes into them arrive, every pass leaves each held group at
    the right epoch and every stored message readable or given up, as it should
    be. */
module EpochTracking {
  import opened Base
  import opened Order
  import opened Mls
  import opened Events
  import opened T = Tables
  import opened Inbound
  import CurrentState

  // --- Linear histories -----------------------------------------------------------

  datatype Place = Place(room: string, i: nat)

  /** Each room's history in DAG order, where each event id sits, and the commit
      that added this device to each room. */
  datatype History = History(rooms: map<string, seq<Event>>, at: map<string, Place>, joinAt: map<string, nat>)

  function Commits(h: seq<Event>): nat
  {
    if h == [] then 0
    else Commits(h[..|h| - 1]) + (if h[|h| - 1].ty == MlsCommit then 1 else 0)
  }

  /** What a pass must get right: commits, and messages from others. */
  predicate Important(ev: Event, user: string)
  {
    ev.ty == MlsCommit || (ev.ty == Encrypted && ev.sender != user)
  }

  function CipherOf(ev: Event): Sealed
  {
    var c := ev.payload.content.ciphertext;
    if c.Some? && c.value.Genuine? then c.value.sealed else Sealed("", 0, "", 0, None)
  }

  /** The `i`-th event is a commit onto the epoch reached so far by somebody else,
      or a message sealed at that epoch, or neither. */
  ghost predicate LinearAt(h: seq<Event>, i: nat, room: string, user: string)
    requires i < |h|
  {
    var ev, c := h[i], h[i].payload.content;
    && ev.roomId == room
    && (ev.ty == MlsCommit ==> ev.sender != user && c.commit == Some(Advance(room, Commits(h[..i]), ev.sender)))
    && (ev.ty == Encrypted ==>
          && c.ciphertext.Some? && c.ciphertext.value.Genuine?
          && CipherOf(ev).room == room && CipherOf(ev).epoch == Commits(h[..i])
          && CipherOf(ev).sender == ev.sender && CipherOf(ev).text.Some?)
  }

  ghost predicate Linear(hist: History, user: string)
  {
    && hist.joinAt.Keys == hist.rooms.Keys
    && (forall r, i | r in hist.rooms && 0 <= i < |hist.rooms[r]| ::
          && LinearAt(hist.rooms[r], i, r, user)
          && hist.rooms[r][i].eventId in hist.at
          && hist.at[hist.rooms[r][i].eventId] == Place(r, i))
    && (forall id | id in hist.at ::
          && hist.at[id].room in hist.rooms && hist.at[id].i < |hist.rooms[hist.at[id].room]|
          && hist.rooms[hist.at[id].room][hist.at[id].i].eventId == id)
    && (forall r, i, j | r in hist.rooms && 0 <= i < j < |hist.rooms[r]| ::
          && hist.rooms[r][i].depth < hist.rooms[r][j].depth
          && (hist.rooms[r][i].ty == Encrypted && hist.rooms[r][j].ty == Encrypted ==>
                KeyOf(CipherOf(hist.rooms[r][i])) != KeyOf(CipherOf(hist.rooms[r][j]))))
  }

  ghost function EventAt(hist: History, id: string): Event
    requires id in hist.at
    requires hist.at[id].room in hist.rooms && hist.at[id].i < |hist.rooms[hist.at[id].room]|
  {
    hist.rooms[hist.at[id].room][hist.at[id].i]
  }

  lemma {:induction false} CommitsUnchanged(h: seq<Event>, a: nat, b: nat)
    requires a <= b <= |h| && forall i | a <= i < b :: h[i].ty != MlsCommit
    ensures Commits(h[..a]) == Commits(h[..b])
  {
    if a < b {
      CommitsUnchanged(h, a, b - 1);
      assert h[..b][..b - 1] == h[..b - 1];
    }
  }

  lemma CommitsNext(h: seq<Event>, i: nat)
    requires i < |h|
    ensures Commits(h[..i + 1]) == Commits(h[..i]) + (if h[i].ty == MlsCommit then 1 else 0)
  {
    assert h[..i + 1][..i] == h[..i];
  }

  // --- Where a device stands --------------------------------------------------------

  function Max(a: nat, b: nat): nat
  {
    if a < b then b else a
  }

  /** The outcome a pass owes an important event: a commit is consumed; a message
      sealed since this device was added is cached in the clear, unless it was missed;
      that one, and an earlier one, is given up. */
  ghost predicate Handled(row: Row, h: seq<Event>, i: nat, j: nat, missed: set<string>)
    requires i < |h|
  {
    if h[i].ty != Encrypted then row.state != Untried
    else if Commits(h[..i]) >= j && h[i].eventId !in missed
    then row.state == Done && row.decrypted == CipherOf(h[i]).text
    else row.state == GaveUp && row.decrypted.None?
  }

  /** Room `room`, with the important events of `h[..n]` stored and those of
      `h[..m]` handled. */
  ghost predicate RoomTracked(db: Db, e: Engine, user: string, room: string, h: seq<Event>, j: nat, n: nat, m: nat,
      missed: set<string>)
    requires forall i | 0 <= i < |h| :: LinearAt(h, i, room, user)
  {
    && m <= n <= |h|
    && (forall i | 0 <= i < |h| && Important(h[i], user) ::
          && (h[i].eventId in db.events <==> i < n)
          && (m <= i ==> h[i].eventId !in missed)
          && (i < n ==>
                && db.events[h[i].eventId].ev == h[i]
                && (if i < m then Handled(db.events[h[i].eventId], h, i, j, missed)
                    else db.events[h[i].eventId].state == Untried && db.events[h[i].eventId].decrypted.None?)))
    && (room !in e.device.groups ==> m == 0)
    && (room in e.device.groups ==>
          && e.device.groups[room].epoch == Max(j, Commits(h[..m]))
          && forall i | m <= i < |h| && h[i].ty == Encrypted && h[i].sender != user ::
               KeyOf(CipherOf(h[i])) !in e.device.groups[room].spent)
  }

  type Counts = map<string, nat>

  /** The only inbound MLS rows are the history's. */
  ghost predicate RowsFromHistory(db: Db, hist: History, user: string)
    requires Linear(hist, user)
  {
    forall id | id in db.events ::
      && db.events[id].ev.eventId == id
      && (Unhandled(db.events[id]) && ItemOf(db.events[id]).Some? ==>
            id in hist.at && db.events[id].ev == EventAt(hist, id))
  }

  ghost predicate EchoesApart(db: Db, hist: History)
  {
    forall txn | txn in db.pending ::
      && db.pending[txn].echo !in hist.at
      && (db.pending[txn].echo in db.events ==> db.events[db.pending[txn].echo].ev.ty == Message)
  }

  ghost predicate AllRooms(db: Db, e: Engine, user: string, hist: History, n: Counts, m: Counts, missed: set<string>)
    requires Linear(hist, user) && n.Keys == hist.rooms.Keys == m.Keys
  {
    forall r | r in hist.rooms :: RoomTracked(db, e, user, r, hist.rooms[r], hist.joinAt[r], n[r], m[r], missed)
  }

  ghost predicate Tracked(db: Db, e: Engine, user: string, hist: History, n: Counts, m: Counts, missed: set<string>)
    requires Linear(hist, user)
  {
    && e.device.user == user
    && n.Keys == hist.rooms.Keys == m.Keys
    && AllRooms(db, e, user, hist, n, m, missed)
    && RowsFromHistory(db, hist, user)
    && EchoesApart(db, hist)
  }

  // --- One pass -----------------------------------------------------------------------

  /** Every item ahead of a pass is a history event, not handled yet if it is
      important. */
  ghost predicate AheadItems(user: string, hist: History, n: Counts, m: Counts, items: seq<MlsItem>)
    requires Linear(hist, user) && n.Keys == hist.rooms.Keys == m.Keys
  {
    forall k | 0 <= k < |items| ::
      && items[k].id in hist.at
      && ItemOf(NewRow(EventAt(hist, items[k].id))) == Some(items[k])
      && (Important(EventAt(hist, items[k].id), user) ==>
            m[hist.at[items[k].id].room] <= hist.at[items[k].id].i < n[hist.at[items[k].id].room])
  }

  /** Each room's items come in room order. */
  ghost predicate AheadInOrder(hist: History, items: seq<MlsItem>)
    requires forall k | 0 <= k < |items| :: items[k].id in hist.at
  {
    forall k, l | 0 <= k < l < |items| && hist.at[items[k].id].room == hist.at[items[l].id].room ::
      hist.at[items[k].id].i < hist.at[items[l].id].i
  }

  /** No important event of a held room is missing. */
  ghost predicate AheadComplete(e: Engine, user: string, hist: History, n: Counts, m: Counts, items: seq<MlsItem>)
    requires n.Keys == hist.rooms.Keys == m.Keys
  {
    forall r, i | r in hist.rooms && r in e.device.groups && m[r] <= i < n[r] && i < |hist.rooms[r]|
        && Important(hist.rooms[r][i], user) ::
      exists k :: 0 <= k < |items| && items[k].id == hist.rooms[r][i].eventId
  }

  ghost predicate Ahead(e: Engine, user: string, hist: History, n: Counts, m: Counts, items: seq<MlsItem>)
    requires Linear(hist, user) && n.Keys == hist.rooms.Keys == m.Keys
  {
    && AheadItems(user, hist, n, m, items)
    && AheadInOrder(hist, items)
    && AheadComplete(e, user, hist, n, m, items)
  }

  /** A change to one row that is none of a room's important events, and to other
      groups, leaves that room tracked. */
  lemma OtherRoomKeeps(db: Db, e: Engine, db': Db, e': Engine, user: string, room: string, h: seq<Event>, j: nat,
      n: nat, m: nat, missed: set<string>)
    requires forall i | 0 <= i < |h| :: LinearAt(h, i, room, user)
    requires RoomTracked(db, e, user, room, h, j, n, m, missed)
    requires forall i | 0 <= i < |h| && Important(h[i], user) ::
               && (h[i].eventId in db'.events <==> h[i].eventId in db.events)
               && (h[i].eventId in db.events ==> db'.events[h[i].eventId] == db.events[h[i].eventId])
    requires room in e'.device.groups <==> room in e.device.groups
    requires room in e.device.groups ==> e'.device.groups[room] == e.device.groups[room]
    ensures RoomTracked(db', e', user, room, h, j, n, m, missed)
  {
  }

  /** Handling an item touches its own row's decryption columns and its own
      room's group, nothing else. */
  lemma ItemEffect(db: Db, e: Engine, user: string, item: MlsItem, io: Io)
    ensures var one := ProcessItem(db, e, user, item, io);
            && one.db.pending == db.pending && one.db.events.Keys == db.events.Keys
            && (forall id | id in db.events && id != item.id :: one.db.events[id] == db.events[id])
            && (item.id in db.events ==>
                  && one.db.events[item.id].ev == db.events[item.id].ev
                  && (one.db.events[item.id].state == Untried ==> db.events[item.id].state == Untried))
            && one.engine.device.user == e.device.user
            && one.engine.device.groups.Keys == e.device.groups.Keys
            && (forall r | r in e.device.groups && r != item.room :: one.engine.device.groups[r] == e.device.groups[r])
  {
  }

  lemma ItemKeepsRows(db: Db, e: Engine, user: string, hist: History, item: MlsItem, io: Io)
    requires Linear(hist, user) && RowsFromHistory(db, hist, user) && EchoesApart(db, hist)
    ensures RowsFromHistory(ProcessItem(db, e, user, item, io).db, hist, user)
    ensures EchoesApart(ProcessItem(db, e, user, item, io).db, hist)
  {
    ItemEffect(db, e, user, item, io);
  }

  lemma ItemKeepsOtherRoom(db: Db, e: Engine, user: string, hist: History, item: MlsItem, io: Io, r: string,
      n: nat, m: nat, missed: set<string>)
    requires Linear(hist, user) && r in hist.rooms
    requires RoomTracked(db, e, user, r, hist.rooms[r], hist.joinAt[r], n, m, missed)
    requires item.id in hist.at && (r != item.room || ProcessItem(db, e, user, item, io).engine == e)
    requires hist.at[item.id].room != r || !Important(EventAt(hist, item.id), user)
    ensures RoomTracked(ProcessItem(db, e, user, item, io).db, ProcessItem(db, e, user, item, io).engine, user, r,
             hist.rooms[r], hist.joinAt[r], n, m, missed)
  {
    var one := ProcessItem(db, e, user, item, io);
    ItemEffect(db, e, user, item, io);
    var h := hist.rooms[r];
    forall k | 0 <= k < |h| && Important(h[k], user) ensures h[k].eventId != item.id {
      assert hist.at[h[k].eventId] == Place(r, k);
    }
    OtherRoomKeeps(db, e, one.db, one.engine, user, r, h, hist.joinAt[r], n, m, missed);
  }

  lemma ItemInItsRoom(hist: History, user: string, item: MlsItem)
    requires Linear(hist, user) && item.id in hist.at && ItemOf(NewRow(EventAt(hist, item.id))) == Some(item)
    ensures item.room == hist.at[item.id].room
    ensures item.sender == EventAt(hist, item.id).sender
  {
    var Place(room, i) := hist.at[item.id];
    assert LinearAt(hist.rooms[room], i, room, user);
  }

  lemma FrontierNow(e: Engine, user: string, hist: History, m: nat, item: MlsItem, io: Io)
    requires Linear(hist, user) && e.device.user == user
    requires item.id in hist.at && ItemOf(NewRow(EventAt(hist, item.id))) == Some(item)
    requires HasGroup(e, hist.at[item.id].room) && Important(EventAt(hist, item.id), user) && CommitLoads(e, item, io)
    requires var p := hist.at[item.id]; m <= p.i && forall i | m <= i < p.i :: !Important(hist.rooms[p.room][i], user)
    ensures var p := hist.at[item.id]; AtFrontier(e, user, p.room, hist.rooms[p.room], m, p.i, item, io)
  {
    hide LinearAt, CommitLoads, ItemOf, CipherOf;
    var Place(room, i) := hist.at[item.id];
    var h := hist.rooms[room];
    CommitsUnchanged(h, m, i);
    CommitsNext(h, i);
    forall k | 0 <= k < |h| && k != i ensures h[k].eventId != item.id {
      assert hist.at[h[k].eventId] == Place(room, k);
    }
  }

  lemma ItsRoomAdvances(db: Db, e: Engine, user: string, hist: History, n: nat, m: nat, item: MlsItem, io: Io,
      missed: set<string>)
    requires Linear(hist, user) && e.device.user == user
    requires item.id in hist.at && ItemOf(NewRow(EventAt(hist, item.id))) == Some(item)
    requires HasGroup(e, hist.at[item.id].room) && Important(EventAt(hist, item.id), user)
    requires var p := hist.at[item.id];
             && RoomTracked(db, e, user, p.room, hist.rooms[p.room], hist.joinAt[p.room], n, m, missed)
             && m <= p.i < n && CommitLoads(e, item, io)
             && forall i | m <= i < p.i :: !Important(hist.rooms[p.room][i], user)
    ensures var p, one := hist.at[item.id], ProcessItem(db, e, user, item, io);
            RoomTracked(one.db, one.engine, user, p.room, hist.rooms[p.room], hist.joinAt[p.room], n, p.i + 1,
                        missed + MissedBy(e, item, io))
  {
    hide RoomTracked, LinearAt, ProcessItem, AtFrontier, CommitLoads, Important, ItemOf, MissedBy;
    FrontierNow(e, user, hist, m, item, io);
    var p := hist.at[item.id];
    RoomAdvances(db, e, user, p.room, hist.rooms[p.room], hist.joinAt[p.room], n, m, p.i, item, io, missed);
  }

  /** Missing a message of another room makes no difference. */
  lemma MissedElsewhere(one: Progress, user: string, hist: History, r: string, n: nat, m: nat, missed: set<string>,
      id: string)
    requires Linear(hist, user) && r in hist.rooms && id in hist.at && hist.at[id].room != r
    requires RoomTracked(one.db, one.engine, user, r, hist.rooms[r], hist.joinAt[r], n, m, missed)
    ensures RoomTracked(one.db, one.engine, user, r, hist.rooms[r], hist.joinAt[r], n, m, missed + {id})
  {
    hide LinearAt;
    forall i | 0 <= i < |hist.rooms[r]| ensures hist.rooms[r][i].eventId != id {
      assert hist.at[hist.rooms[r][i].eventId] == Place(r, i);
    }
  }

  lemma RoomAfterItem(db: Db, e: Engine, user: string, hist: History, n: Counts, m: Counts, item: MlsItem, io: Io,
      r: string, missed: set<string>)
    requires Linear(hist, user) && Tracked(db, e, user, hist, n, m, missed) && r in hist.rooms
    requires item.id in hist.at && ItemOf(NewRow(EventAt(hist, item.id))) == Some(item)
    requires HasGroup(e, item.room) && Important(EventAt(hist, item.id), user) && CommitLoads(e, item, io)
    requires var p := hist.at[item.id];
             m[p.room] <= p.i < n[p.room] && forall i | m[p.room] <= i < p.i :: !Important(hist.rooms[p.room][i], user)
    ensures var p, one := hist.at[item.id], ProcessItem(db, e, user, item, io);
            RoomTracked(one.db, one.engine, user, r, hist.rooms[r], hist.joinAt[r], n[r], m[p.room := p.i + 1][r],
              missed + MissedBy(e, item, io))
  {
    hide ProcessItem, RoomTracked, RowsFromHistory, EchoesApart, LinearAt, Important;
    ItemInItsRoom(hist, user, item);
    if r == item.room {
      ItsRoomAdvances(db, e, user, hist, n[r], m[r], item, io, missed);
    } else {
      ItemKeepsOtherRoom(db, e, user, hist, item, io, r, n[r], m[r], missed);
      assert missed + {} == missed;
      MissedElsewhere(ProcessItem(db, e, user, item, io), user, hist, r, n[r], m[r], missed, item.id);
    }
  }

  lemma AllRoomsAfterItem(db: Db, e: Engine, user: string, hist: History, n: Counts, m: Counts, item: MlsItem, io: Io,
      missed: set<string>)
    requires Linear(hist, user) && Tracked(db, e, user, hist, n, m, missed)
    requires item.id in hist.at && ItemOf(NewRow(EventAt(hist, item.id))) == Some(item)
    requires HasGroup(e, item.room) && Important(EventAt(hist, item.id), user) && CommitLoads(e, item, io)
    requires var p := hist.at[item.id];
             m[p.room] <= p.i < n[p.room] && forall i | m[p.room] <= i < p.i :: !Important(hist.rooms[p.room][i], user)
    ensures var p, one := hist.at[item.id], ProcessItem(db, e, user, item, io);
            m[p.room := p.i + 1].Keys == hist.rooms.Keys
              && AllRooms(one.db, one.engine, user, hist, n, m[p.room := p.i + 1], missed + MissedBy(e, item, io))
  {
    hide ProcessItem, RoomTracked, RowsFromHistory, EchoesApart, LinearAt, Important;
    var p := hist.at[item.id];
    assert m[p.room := p.i + 1].Keys == hist.rooms.Keys;
    forall r | r in hist.rooms {
      RoomAfterItem(db, e, user, hist, n, m, item, io, r, missed);
    }
  }

  lemma ImportantStep(db: Db, e: Engine, user: string, hist: History, n: Counts, m: Counts, item: MlsItem, io: Io,
      missed: set<string>)
    requires Linear(hist, user) && Tracked(db, e, user, hist, n, m, missed)
    requires item.id in hist.at && ItemOf(NewRow(EventAt(hist, item.id))) == Some(item)
    requires HasGroup(e, item.room) && Important(EventAt(hist, item.id), user) && CommitLoads(e, item, io)
    requires var p := hist.at[item.id];
             m[p.room] <= p.i < n[p.room] && forall i | m[p.room] <= i < p.i :: !Important(hist.rooms[p.room][i], user)
    ensures var one := ProcessItem(db, e, user, item, io);
            && one.engine.device.groups.Keys == e.device.groups.Keys
            && Tracked(one.db, one.engine, user, hist, n, m[hist.at[item.id].room := hist.at[item.id].i + 1],
                 missed + MissedBy(e, item, io))
  {
    hide ProcessItem, RoomTracked, RowsFromHistory, EchoesApart, LinearAt, Important;
    var p, one := hist.at[item.id], ProcessItem(db, e, user, item, io);
    var m' := m[p.room := p.i + 1];
    assert m'.Keys == hist.rooms.Keys;
    ItemEffect(db, e, user, item, io);
    ItemKeepsRows(db, e, user, hist, item, io);
    AllRoomsAfterItem(db, e, user, hist, n, m, item, io, missed);
  }

  /** The item stands for event `i`, with nothing left to handle before it. */
  ghost predicate AtFrontier(e: Engine, user: string, room: string, h: seq<Event>, m: nat, i: nat, item: MlsItem,
      io: Io)
  {
    && m <= i < |h| && (forall k | 0 <= k < |h| :: LinearAt(h, k, room, user))
    && (forall k, l | 0 <= k < l < |h| && h[k].ty == Encrypted && h[l].ty == Encrypted ::
          KeyOf(CipherOf(h[k])) != KeyOf(CipherOf(h[l])))
    && e.device.user == user && HasGroup(e, room) && CommitLoads(e, item, io)
    && h[i].eventId == item.id && ItemOf(NewRow(h[i])) == Some(item) && Important(h[i], user)
    && (forall k | m <= k < i :: !Important(h[k], user))
    && (forall k | 0 <= k < |h| && k != i :: h[k].eventId != item.id)
    && Commits(h[..m]) == Commits(h[..i])
    && Commits(h[..i + 1]) == Commits(h[..i]) + (if h[i].ty == MlsCommit then 1 else 0)
  }

  /** What the engine makes of it. */
  lemma FrontierMoves(db: Db, e: Engine, user: string, room: string, h: seq<Event>, j: nat, n: nat, m: nat, i: nat,
      item: MlsItem, io: Io, missed: set<string>)
    requires AtFrontier(e, user, room, h, m, i, item, io) && RoomTracked(db, e, user, room, h, j, n, m, missed) && i < n
    ensures var one, g := ProcessItem(db, e, user, item, io), e.device.groups[room];
            && room in one.engine.device.groups
            && one.engine.device.groups[room].epoch == Max(j, Commits(h[..i + 1]))
            && (h[i].ty == MlsCommit ==> one.engine.device.groups[room].spent == g.spent)
            && (h[i].ty == Encrypted ==> one.engine.device.groups[room].spent <= g.spent + {KeyOf(CipherOf(h[i]))})
            && h[i].eventId in one.db.events
            && Handled(one.db.events[h[i].eventId], h, i, j, missed + MissedBy(e, item, io))
            && MissedBy(e, item, io) <= {h[i].eventId}
  {
    var one := ProcessItem(db, e, user, item, io);
    assert LinearAt(h, i, room, user);
    if h[i].ty == MlsCommit {
      assert CanApply(e.device, room, item.commit) <==> Commits(h[..i]) >= j;
    } else {
      assert CanOpen(e.device, room, item.cipher) <==> Commits(h[..i]) >= j;
    }
  }

  /** The item itself: the group moves with its commits and opens what it can. */
  lemma RoomAdvances(db: Db, e: Engine, user: string, room: string, h: seq<Event>, j: nat, n: nat, m: nat, i: nat,
      item: MlsItem, io: Io, missed: set<string>)
    requires AtFrontier(e, user, room, h, m, i, item, io) && RoomTracked(db, e, user, room, h, j, n, m, missed) && i < n
    ensures RoomTracked(ProcessItem(db, e, user, item, io).db, ProcessItem(db, e, user, item, io).engine, user,
             room, h, j, n, i + 1, missed + MissedBy(e, item, io))
  {
    hide ProcessItem, LinearAt, MissedBy, CommitLoads, ItemOf, CipherOf, KeyOf;
    FrontierMoves(db, e, user, room, h, j, n, m, i, item, io, missed);
    ItemEffect(db, e, user, item, io);
  }

  lemma OwnCannotOpen(db: Db, e: Engine, user: string, hist: History, item: MlsItem, io: Io)
    requires Linear(hist, user) && e.device.user == user
    requires item.id in hist.at && ItemOf(NewRow(EventAt(hist, item.id))) == Some(item)
    requires !Important(EventAt(hist, item.id), user)
    ensures ProcessItem(db, e, user, item, io).engine == e
  {
    var Place(room, i) := hist.at[item.id];
    assert LinearAt(hist.rooms[room], i, room, user);
  }

  lemma OwnMessageStep(db: Db, e: Engine, user: string, hist: History, n: Counts, m: Counts, item: MlsItem, io: Io,
      missed: set<string>)
    requires Linear(hist, user) && Tracked(db, e, user, hist, n, m, missed)
    requires item.id in hist.at && ItemOf(NewRow(EventAt(hist, item.id))) == Some(item)
    requires !Important(EventAt(hist, item.id), user)
    ensures var one := ProcessItem(db, e, user, item, io);
            one.engine == e && Tracked(one.db, e, user, hist, n, m, missed)
  {
    OwnCannotOpen(db, e, user, hist, item, io);
    ItemKeepsRows(db, e, user, hist, item, io);
    forall r | r in hist.rooms
      ensures RoomTracked(ProcessItem(db, e, user, item, io).db, e, user, r, hist.rooms[r], hist.joinAt[r], n[r],
               m[r], missed)
    {
      ItemKeepsOtherRoom(db, e, user, hist, item, io, r, n[r], m[r], missed);
    }
  }

  lemma Occurs(e: Engine, user: string, hist: History, n: Counts, m: Counts, items: seq<MlsItem>, r: string, i: nat)
      returns (k: nat)
    requires Linear(hist, user) && n.Keys == hist.rooms.Keys == m.Keys
    requires Ahead(e, user, hist, n, m, items)
    requires r in hist.rooms && r in e.device.groups && m[r] <= i < n[r] && i < |hist.rooms[r]|
             && Important(hist.rooms[r][i], user)
    ensures k < |items| && items[k].id in hist.at && hist.at[items[k].id] == Place(r, i)
  {
    k :| 0 <= k < |items| && items[k].id == hist.rooms[r][i].eventId;
  }

  lemma NothingSkipped(e: Engine, user: string, hist: History, n: Counts, m: Counts, items: seq<MlsItem>, i: nat)
    requires Linear(hist, user) && n.Keys == hist.rooms.Keys == m.Keys
    requires Ahead(e, user, hist, n, m, items) && items != []
    requires var p := hist.at[items[0].id];
             p.room in e.device.groups && m[p.room] <= i < p.i < n[p.room]
    ensures !Important(hist.rooms[hist.at[items[0].id].room][i], user)
  {
    var p := hist.at[items[0].id];
    if Important(hist.rooms[p.room][i], user) {
      var k := Occurs(e, user, hist, n, m, items, p.room, i);
    }
  }

  lemma TailComplete(e: Engine, e': Engine, user: string, hist: History, n: Counts, m: Counts, m': Counts,
      items: seq<MlsItem>)
    requires Linear(hist, user) && n.Keys == hist.rooms.Keys && m.Keys == hist.rooms.Keys && m'.Keys == hist.rooms.Keys
    requires AheadItems(user, hist, n, m, items) && AheadComplete(e, user, hist, n, m, items) && items != []
    requires e'.device.groups.Keys == e.device.groups.Keys
    requires var p := hist.at[items[0].id];
             if p.room in e.device.groups && Important(EventAt(hist, items[0].id), user)
                 then m' == m[p.room := p.i + 1] else m' == m
    ensures AheadComplete(e', user, hist, n, m', items[1..])
  {
    hide LinearAt, ItemOf;
    var tail := items[1..];
    forall r, i | r in hist.rooms && r in e'.device.groups && m'[r] <= i < n[r] && i < |hist.rooms[r]|
        && Important(hist.rooms[r][i], user)
      ensures exists k :: 0 <= k < |tail| && tail[k].id == hist.rooms[r][i].eventId
    {
      assert m[r] <= m'[r];
      var k :| 0 <= k < |items| && items[k].id == hist.rooms[r][i].eventId;
      assert hist.at[items[k].id] == Place(r, i);
      assert k != 0;
      assert tail[k - 1] == items[k];
    }
  }

  lemma AheadTail(e: Engine, e': Engine, user: string, hist: History, n: Counts, m: Counts, m': Counts,
      items: seq<MlsItem>)
    requires Linear(hist, user) && n.Keys == hist.rooms.Keys && m.Keys == hist.rooms.Keys && m'.Keys == hist.rooms.Keys
    requires Ahead(e, user, hist, n, m, items) && items != []
    requires e'.device.groups.Keys == e.device.groups.Keys
    requires var p := hist.at[items[0].id];
             if p.room in e.device.groups && Important(EventAt(hist, items[0].id), user)
                 then m' == m[p.room := p.i + 1] else m' == m
    ensures Ahead(e', user, hist, n, m', items[1..])
  {
    hide LinearAt, ItemOf, AheadComplete, Important;
    var tail := items[1..];
    assert forall k | 0 <= k < |tail| :: tail[k] == items[k + 1];
    TailComplete(e, e', user, hist, n, m, m', items);
  }

  lemma DoneRoom(db: Db, e: Engine, user: string, room: string, h: seq<Event>, j: nat, n: nat, m: nat,
      missed: set<string>)
    requires forall i | 0 <= i < |h| :: LinearAt(h, i, room, user)
    requires RoomTracked(db, e, user, room, h, j, n, m, missed) && room in e.device.groups
    requires forall i | m <= i < n :: !Important(h[i], user)
    ensures RoomTracked(db, e, user, room, h, j, n, n, missed)
  {
    CommitsUnchanged(h, m, n);
  }

  lemma {:induction false} PassTracks(db: Db, e: Engine, user: string, hist: History, n: Counts, m: Counts,
      items: seq<MlsItem>, calls: seq<Call>, missed: set<string>)
    returns (m': Counts)
    requires Linear(hist, user) && Tracked(db, e, user, hist, n, m, missed) && Ahead(e, user, hist, n, m, items)
    requires CommitsLoad(db, e, user, items, calls)
    ensures var out := ProcessItems(db, e, user, items, calls);
            && Tracked(out.db, out.engine, user, hist, n, m', missed + Missed(db, e, user, items, calls))
            && out.engine.device.groups.Keys == e.device.groups.Keys
            && (!out.stopped ==> forall r | r in hist.rooms && r in e.device.groups :: m'[r] == n[r])
    decreases |items|
  {
    hide Tracked, Ahead, ProcessItem, MissedBy, MissedAt, CommitLoads, CallNow, CallLater;
    assert missed + {} == missed;
    if items == [] {
      m' := PassEnds(db, e, user, hist, n, m, missed);
    } else if !CallNow(calls).ask {
      m' := m;
    } else {
      var io := CallNow(calls).io;
      var one := ProcessItem(db, e, user, items[0], io);
      var m1 := HeadStep(db, e, user, hist, n, m, items, io, missed);
      OursIsNotMissed(db, e, user, hist, n, m, items, io, missed);
      var here, rest := MissedBy(e, items[0], io), Missed(one.db, one.engine, user, items[1..], CallLater(calls));
      m' := PassTracks(one.db, one.engine, user, hist, n, m1, items[1..], CallLater(calls), missed + here);
      assert missed + here + rest == missed + (here + rest);
    }
  }

  /** What waits is ours, and could not have been opened. */
  lemma OursIsNotMissed(db: Db, e: Engine, user: string, hist: History, n: Counts, m: Counts, items: seq<MlsItem>,
      io: Io, missed: set<string>)
    requires Linear(hist, user) && Tracked(db, e, user, hist, n, m, missed) && Ahead(e, user, hist, n, m, items)
    requires items != []
    ensures MissedAt(db, e, user, items[0], io) == MissedBy(e, items[0], io)
  {
    hide RowsFromHistory, EchoesApart, AllRooms, AheadInOrder, AheadComplete, Important, HasPendingSend;
    var Place(room, i) := hist.at[items[0].id];
    assert LinearAt(hist.rooms[room], i, room, user);
  }

  lemma PassEnds(db: Db, e: Engine, user: string, hist: History, n: Counts, m: Counts, missed: set<string>)
      returns (m': Counts)
    requires Linear(hist, user) && Tracked(db, e, user, hist, n, m, missed) && Ahead(e, user, hist, n, m, [])
    ensures Tracked(db, e, user, hist, n, m', missed)
    ensures forall r | r in hist.rooms && r in e.device.groups :: m'[r] == n[r]
  {
    hide LinearAt, RowsFromHistory, EchoesApart, Important, Handled;
    m' := map r | r in hist.rooms :: if r in e.device.groups then n[r] else m[r];
    forall r | r in hist.rooms
      ensures RoomTracked(db, e, user, r, hist.rooms[r], hist.joinAt[r], n[r], m'[r], missed)
    {
      if r in e.device.groups {
        DoneRoom(db, e, user, r, hist.rooms[r], hist.joinAt[r], n[r], m[r], missed);
      }
    }
  }

  lemma Skipped(db: Db, e: Engine, user: string, item: MlsItem, io: Io)
    requires !HasGroup(e, item.room)
    ensures ProcessItem(db, e, user, item, io).db == db && ProcessItem(db, e, user, item, io).engine == e
  {
  }

  /** The item does not move any frontier: its room is not held, or it is ours. */
  lemma HeadStays(db: Db, e: Engine, user: string, hist: History, n: Counts, m: Counts, item: MlsItem, io: Io,
      missed: set<string>)
    requires Linear(hist, user) && Tracked(db, e, user, hist, n, m, missed)
    requires item.id in hist.at && ItemOf(NewRow(EventAt(hist, item.id))) == Some(item)
    requires HasGroup(e, hist.at[item.id].room) ==> !Important(EventAt(hist, item.id), user)
    ensures Tracked(ProcessItem(db, e, user, item, io).db, ProcessItem(db, e, user, item, io).engine, user, hist,
             n, m, missed)
  {
    hide ProcessItem, RowsFromHistory, EchoesApart, AllRooms, LinearAt, Important;
    ItemInItsRoom(hist, user, item);
    if HasGroup(e, item.room) {
      OwnMessageStep(db, e, user, hist, n, m, item, io, missed);
    } else {
      Skipped(db, e, user, item, io);
    }
  }

  lemma NothingMissed(e: Engine, user: string, hist: History, item: MlsItem, io: Io)
    requires Linear(hist, user) && e.device.user == user
    requires item.id in hist.at && ItemOf(NewRow(EventAt(hist, item.id))) == Some(item)
    requires HasGroup(e, hist.at[item.id].room) ==> !Important(EventAt(hist, item.id), user)
    ensures MissedBy(e, item, io) == {}
  {
    var Place(room, i) := hist.at[item.id];
    assert LinearAt(hist.rooms[room], i, room, user);
  }

  lemma HeadStep(db: Db, e: Engine, user: string, hist: History, n: Counts, m: Counts, items: seq<MlsItem>, io: Io,
      missed: set<string>)
      returns (m1: Counts)
    requires Linear(hist, user) && Tracked(db, e, user, hist, n, m, missed) && Ahead(e, user, hist, n, m, items)
             && items != []
    requires CommitLoads(e, items[0], io)
    ensures var one := ProcessItem(db, e, user, items[0], io);
            && Tracked(one.db, one.engine, user, hist, n, m1, missed + MissedBy(e, items[0], io))
            && one.engine.device.groups.Keys == e.device.groups.Keys
            && Ahead(one.engine, user, hist, n, m1, items[1..])
  {
    hide ProcessItem, RowsFromHistory, EchoesApart, AllRooms, LinearAt, AheadInOrder, AheadComplete, Important;
    var item := items[0];
    var p := hist.at[item.id];
    ItemEffect(db, e, user, item, io);
    m1 := m;
    if HasGroup(e, p.room) && Important(EventAt(hist, item.id), user) {
      m1 := m[p.room := p.i + 1];
      HeadMoves(db, e, user, hist, n, m, items, io, missed);
    } else {
      HeadStays(db, e, user, hist, n, m, item, io, missed);
      NothingMissed(e, user, hist, item, io);
      assert missed + {} == missed;
    }
    AheadTail(e, ProcessItem(db, e, user, item, io).engine, user, hist, n, m, m1, items);
  }

  lemma HeadMoves(db: Db, e: Engine, user: string, hist: History, n: Counts, m: Counts, items: seq<MlsItem>, io: Io,
      missed: set<string>)
    requires Linear(hist, user) && Tracked(db, e, user, hist, n, m, missed) && Ahead(e, user, hist, n, m, items)
             && items != []
    requires CommitLoads(e, items[0], io)
    requires HasGroup(e, hist.at[items[0].id].room) && Important(EventAt(hist, items[0].id), user)
    ensures var one, p := ProcessItem(db, e, user, items[0], io), hist.at[items[0].id];
            Tracked(one.db, one.engine, user, hist, n, m[p.room := p.i + 1], missed + MissedBy(e, items[0], io))
  {
    hide ProcessItem, RowsFromHistory, EchoesApart, AllRooms, LinearAt, AheadComplete, AheadInOrder, CommitLoads;
    var p := hist.at[items[0].id];
    ItemInItsRoom(hist, user, items[0]);
    forall i | m[p.room] <= i < p.i ensures !Important(hist.rooms[p.room][i], user) {
      NothingSkipped(e, user, hist, n, m, items, i);
    }
    ImportantStep(db, e, user, hist, n, m, items[0], io, missed);
  }

  // --- Working a list of known items ---------------------------------------------------------------

  /** A message of ours, which nothing of ours can open. */
  predicate OwnItem(user: string, item: MlsItem)
  {
    item.MessageItem? && item.sender == user && (item.cipher.Genuine? ==> item.cipher.sealed.sender == user)
  }

  ghost predicate KnownItem(hist: History, user: string, item: MlsItem)
    requires Linear(hist, user)
  {
    if item.id in hist.at then ItemOf(NewRow(EventAt(hist, item.id))) == Some(item) else OwnItem(user, item)
  }

  /** The item stands for event `x` of room `r`. */
  predicate ItemFor(item: MlsItem, h: seq<Event>, x: nat, r: string, user: string)
  {
    && x < |h| && h[x].eventId == item.id && item.room == r && item.sender == h[x].sender
    && match item
       case MessageItem(_, _, _, cipher) =>
         && h[x].ty == Encrypted && cipher == Genuine(CipherOf(h[x])) && CipherOf(h[x]).room == r
         && CipherOf(h[x]).sender == item.sender && CipherOf(h[x]).epoch == Commits(h[..x]) && CipherOf(h[x]).text.Some?
       case CommitItem(_, _, sender, commit) =>
         h[x].ty == MlsCommit && sender != user && commit == Advance(r, Commits(h[..x]), sender)
  }

  lemma HistoryItem(hist: History, user: string, item: MlsItem)
    requires Linear(hist, user) && item.id in hist.at && KnownItem(hist, user, item)
    ensures var Place(r, x) := hist.at[item.id];
            && r in hist.rooms && r in hist.joinAt && ItemFor(item, hist.rooms[r], x, r, user)
            && (!Important(hist.rooms[r][x], user) ==> OwnItem(user, item))
  {
    var Place(r, x) := hist.at[item.id];
    assert LinearAt(hist.rooms[r], x, r, user);
  }

  lemma {:induction false} CommitsGrow(h: seq<Event>, a: nat, b: nat)
    requires a <= b <= |h|
    ensures Commits(h[..a]) <= Commits(h[..b])
  {
    if a < b {
      CommitsGrow(h, a, b - 1);
      CommitsNext(h, b - 1);
    }
  }

  ghost predicate AllKnown(hist: History, user: string, items: seq<MlsItem>)
    requires Linear(hist, user)
  {
    forall k: nat | k < |items| :: KnownItem(hist, user, items[k])
  }

  lemma TailKnown(hist: History, user: string, items: seq<MlsItem>)
    requires Linear(hist, user) && AllKnown(hist, user, items) && items != []
    ensures AllKnown(hist, user, items[1..])
  {
    hide KnownItem, Linear;
    assert forall k | 0 <= k < |items[1..]| :: items[1..][k] == items[k + 1];
  }

  predicate IsCommit(hist: History, r: string, c: nat)
  {
    r in hist.rooms && c < |hist.rooms[r]| && hist.rooms[r][c].ty == MlsCommit
  }

  /** Only the commit built on the group's epoch moves it, by one. */
  lemma ItemMoves(db: Db, e: Engine, user: string, hist: History, item: MlsItem, io: Io, r: string)
    requires Linear(hist, user) && KnownItem(hist, user, item) && e.device.user == user && HasGroup(e, r)
    requires r in hist.rooms
    ensures var e' := ProcessItem(db, e, user, item, io).engine;
            && e'.device.user == user && HasGroup(e', r)
            && (e'.device.groups[r].epoch == e.device.groups[r].epoch
                || (item.id in hist.at && hist.at[item.id].room == r && IsCommit(hist, r, hist.at[item.id].i)
                    && Commits(hist.rooms[r][..hist.at[item.id].i]) == e.device.groups[r].epoch
                    && e'.device.groups[r].epoch == e.device.groups[r].epoch + 1))
  {
    hide LinearAt, HasPendingSend, CipherOf;
    if item.id in hist.at {
      HistoryItem(hist, user, item);
    }
  }

  lemma SameBase(h: seq<Event>, a: nat, b: nat)
    requires a < |h| && b < |h| && h[a].ty == MlsCommit && h[b].ty == MlsCommit
    requires Commits(h[..a]) == Commits(h[..b])
    ensures a == b
  {
    CommitsNext(h, a);
    CommitsNext(h, b);
    if a < b {
      CommitsGrow(h, a + 1, b);
    } else if b < a {
      CommitsGrow(h, b + 1, a);
    }
  }

  /** A group never passes a commit that is not worked. */
  lemma {:induction false} NeverPasses(db: Db, e: Engine, user: string, hist: History, items: seq<MlsItem>,
      calls: seq<Call>, r: string, c: nat)
    requires Linear(hist, user) && AllKnown(hist, user, items) && e.device.user == user && HasGroup(e, r)
    requires IsCommit(hist, r, c) && e.device.groups[r].epoch <= Commits(hist.rooms[r][..c])
    requires forall k | 0 <= k < |items| :: items[k].id != hist.rooms[r][c].eventId
    ensures var e' := ProcessItems(db, e, user, items, calls).engine;
            HasGroup(e', r) && e'.device.groups[r].epoch <= Commits(hist.rooms[r][..c])
    decreases |items|
  {
    hide LinearAt, ProcessItem, KnownItem, Commits, CallNow, CallLater;
    if items != [] && CallNow(calls).ask {
      var one := ProcessItem(db, e, user, items[0], CallNow(calls).io);
      ItemMoves(db, e, user, hist, items[0], CallNow(calls).io, r);
      TailKnown(hist, user, items);
      if one.engine.device.groups[r].epoch > Commits(hist.rooms[r][..c]) {
        SameBase(hist.rooms[r], hist.at[items[0].id].i, c);
        assert false;
      }
      NeverPasses(one.db, one.engine, user, hist, items[1..], CallLater(calls), r, c);
    }
  }

  lemma AheadKnown(user: string, hist: History, n: Counts, m: Counts, items: seq<MlsItem>)
    requires Linear(hist, user) && n.Keys == hist.rooms.Keys == m.Keys && AheadItems(user, hist, n, m, items)
    ensures AllKnown(hist, user, items)
  {
    hide LinearAt, ItemOf;
  }

  /** Every group held is at the epoch of the join or of the stored commits. */
  ghost predicate EpochsRight(e: Engine, hist: History, n: Counts)
  {
    forall r | r in hist.rooms && r in hist.joinAt && r in n && HasGroup(e, r) ::
      n[r] <= |hist.rooms[r]| && e.device.groups[r].epoch == Max(hist.joinAt[r], Commits(hist.rooms[r][..n[r]]))
  }

  lemma TrackedIsRight(db: Db, e: Engine, user: string, hist: History, n: Counts, m: Counts, missed: set<string>)
    requires Linear(hist, user) && Tracked(db, e, user, hist, n, m, missed)
    requires forall r | r in hist.rooms && r in e.device.groups :: m[r] == n[r]
    ensures EpochsRight(e, hist, n)
  {
    hide LinearAt, RowsFromHistory, EchoesApart;
    forall r | r in hist.rooms && HasGroup(e, r)
      ensures RoomTracked(db, e, user, r, hist.rooms[r], hist.joinAt[r], n[r], n[r], missed)
    {
    }
  }

  /** The first commit whose load fails leaves its group behind for the whole pass. */
  lemma FailedLoadIsWrong(db: Db, e: Engine, user: string, hist: History, n: Counts, m: Counts, items: seq<MlsItem>,
      calls: seq<Call>, missed: set<string>)
    requires Linear(hist, user) && Tracked(db, e, user, hist, n, m, missed) && Ahead(e, user, hist, n, m, items)
    requires items != [] && CallNow(calls).ask && !CommitLoads(e, items[0], CallNow(calls).io)
    ensures !EpochsRight(ProcessItems(db, e, user, items, calls).engine, hist, n)
  {
    hide LinearAt, RowsFromHistory, EchoesApart, AheadComplete, RoomTracked, Commits, CallNow, CallLater, AllKnown,
        ItemFor;
    var Place(r, i) := hist.at[items[0].id];
    AheadKnown(user, hist, n, m, items);
    HeadApplies(db, e, user, hist, n, m, items, calls, missed);
    var one := ProcessItem(db, e, user, items[0], CallNow(calls).io);
    assert one.engine == e;
    TailKnown(hist, user, items);
    forall k | 0 <= k < |items[1..]| ensures items[1..][k].id != hist.rooms[r][i].eventId {
      assert hist.at[items[k + 1].id].room == r ==> i < hist.at[items[k + 1].id].i;
    }
    NeverPasses(one.db, e, user, hist, items[1..], CallLater(calls), r, i);
    CommitsNext(hist.rooms[r], i);
    CommitsGrow(hist.rooms[r], i + 1, n[r]);
  }

  /** A commit that applies is built on its group's epoch. */
  lemma HeadApplies(db: Db, e: Engine, user: string, hist: History, n: Counts, m: Counts, items: seq<MlsItem>,
      calls: seq<Call>, missed: set<string>)
    requires Linear(hist, user) && Tracked(db, e, user, hist, n, m, missed) && Ahead(e, user, hist, n, m, items)
    requires items != [] && !CommitLoads(e, items[0], CallNow(calls).io)
    ensures var Place(r, i) := hist.at[items[0].id];
            && IsCommit(hist, r, i) && HasGroup(e, r) && e.device.groups[r].epoch == Commits(hist.rooms[r][..i])
            && items[0].id == hist.rooms[r][i].eventId && items[0].CommitItem? && items[0].room == r
            && i < n[r] <= |hist.rooms[r]|
  {
    hide RowsFromHistory, EchoesApart, AheadComplete, AheadInOrder, Commits, CallNow;
    var Place(r, i) := hist.at[items[0].id];
    assert LinearAt(hist.rooms[r], i, r, user);
    assert RoomTracked(db, e, user, r, hist.rooms[r], hist.joinAt[r], n[r], m[r], missed);
  }

  /** A pass whose questions are all answered leaves every group at the right epoch
      if and only if every commit that applies at its turn loads its group; failed
      writes, and messages missed, make no difference. */
  lemma {:induction false} EpochsRightIff(db: Db, e: Engine, user: string, hist: History, n: Counts, m: Counts,
      items: seq<MlsItem>, calls: seq<Call>, missed: set<string>)
    requires Linear(hist, user) && Tracked(db, e, user, hist, n, m, missed) && Ahead(e, user, hist, n, m, items)
    requires forall k | 0 <= k < |calls| :: calls[k].ask
    ensures EpochsRight(ProcessItems(db, e, user, items, calls).engine, hist, n)
            <==> CommitsLoad(db, e, user, items, calls)
    decreases |items|
  {
    hide Linear, Tracked, Ahead, ProcessItem, CommitLoads, EpochsRight, MissedBy;
    if items == [] {
      RightWhenLoaded(db, e, user, hist, n, m, items, calls, missed);
    } else if CommitLoads(e, items[0], CallNow(calls).io) {
      var one := ProcessItem(db, e, user, items[0], CallNow(calls).io);
      var m1 := HeadStep(db, e, user, hist, n, m, items, CallNow(calls).io, missed);
      EpochsRightIff(one.db, one.engine, user, hist, n, m1, items[1..], CallLater(calls),
        missed + MissedBy(e, items[0], CallNow(calls).io));
    } else {
      FailedLoadIsWrong(db, e, user, hist, n, m, items, calls, missed);
    }
  }

  lemma RightWhenLoaded(db: Db, e: Engine, user: string, hist: History, n: Counts, m: Counts, items: seq<MlsItem>,
      calls: seq<Call>, missed: set<string>)
    requires Linear(hist, user) && Tracked(db, e, user, hist, n, m, missed) && Ahead(e, user, hist, n, m, items)
    requires CommitsLoad(db, e, user, items, calls) && forall k | 0 <= k < |calls| :: calls[k].ask
    ensures EpochsRight(ProcessItems(db, e, user, items, calls).engine, hist, n)
  {
    hide Linear, Tracked, Ahead, ProcessItem, EpochsRight, CommitsLoad;
    StopsIff(db, e, user, items, calls);
    var m' := PassTracks(db, e, user, hist, n, m, items, calls, missed);
    var out := ProcessItems(db, e, user, items, calls);
    TrackedIsRight(out.db, out.engine, user, hist, n, m', missed + Missed(db, e, user, items, calls));
  }

  lemma StreamRow(db: Db, k: nat)
    requires k < |PendingMls(db)|
    ensures var rank := Ordered(MlsRanks(db))[k];
            && rank.id in db.events && rank.n == db.events[rank.id].ev.depth
            && Unhandled(db.events[rank.id]) && ItemOf(db.events[rank.id]) == Some(PendingMls(db)[k])
  {
    var rank := Ordered(MlsRanks(db))[k];
    assert rank in Ordered(MlsRanks(db)) && rank in MlsRanks(db);
  }

  /** An item of the stream and the history event it stands for. */
  lemma StreamItem(db: Db, e: Engine, user: string, hist: History, n: Counts, m: Counts, id: string,
      missed: set<string>)
    requires Linear(hist, user) && Tracked(db, e, user, hist, n, m, missed)
    requires id in db.events && Unhandled(db.events[id]) && ItemOf(db.events[id]).Some?
    ensures id in hist.at && EventAt(hist, id) == db.events[id].ev && ItemOf(db.events[id]).value.id == id
    ensures Important(EventAt(hist, id), user) ==> m[hist.at[id].room] <= hist.at[id].i < n[hist.at[id].room]
  {
    hide EchoesApart, LinearAt;
    var p := hist.at[id];
    assert RoomTracked(db, e, user, p.room, hist.rooms[p.room], hist.joinAt[p.room], n[p.room], m[p.room], missed);
    assert hist.rooms[p.room][p.i].eventId == id;
  }

  lemma StreamHas(db: Db, rank: Rank) returns (k: nat)
    requires rank in MlsRanks(db)
    ensures k < |PendingMls(db)| && Ordered(MlsRanks(db))[k] == rank
  {
    assert rank in Ordered(MlsRanks(db));
    k :| 0 <= k < |Ordered(MlsRanks(db))| && Ordered(MlsRanks(db))[k] == rank;
  }

  lemma InStream(db: Db, id: string)
    requires id in db.events && Unhandled(db.events[id]) && ItemOf(db.events[id]).Some?
    ensures Rank(db.events[id].ev.depth, id) in MlsRanks(db)
  {
  }

  lemma StreamComplete(db: Db, e: Engine, user: string, hist: History, n: Counts, m: Counts, r: string, i: nat,
      missed: set<string>)
      returns (k: nat)
    requires Linear(hist, user) && Tracked(db, e, user, hist, n, m, missed)
    requires r in hist.rooms && m[r] <= i < n[r] && i < |hist.rooms[r]| && Important(hist.rooms[r][i], user)
    ensures k < |PendingMls(db)| && PendingMls(db)[k].id == hist.rooms[r][i].eventId
  {
    hide EchoesApart, Handled, RowsFromHistory, PendingMls, MlsRanks, Ordered;
    var id := hist.rooms[r][i].eventId;
    assert LinearAt(hist.rooms[r], i, r, user);
    assert RoomTracked(db, e, user, r, hist.rooms[r], hist.joinAt[r], n[r], m[r], missed);
    InStream(db, id);
    k := StreamHas(db, Rank(db.events[id].ev.depth, id));
    StreamRow(db, k);
    StreamItem(db, e, user, hist, n, m, id, missed);
  }

  lemma StreamItems(db: Db, e: Engine, user: string, hist: History, n: Counts, m: Counts, k: nat, missed: set<string>)
    requires Linear(hist, user) && Tracked(db, e, user, hist, n, m, missed) && k < |PendingMls(db)|
    ensures var item, rank := PendingMls(db)[k], Ordered(MlsRanks(db))[k];
            && item.id == rank.id && item.id in hist.at && rank.n == EventAt(hist, item.id).depth
            && ItemOf(NewRow(EventAt(hist, item.id))) == Some(item)
            && (Important(EventAt(hist, item.id), user) ==>
                 m[hist.at[item.id].room] <= hist.at[item.id].i < n[hist.at[item.id].room])
  {
    StreamRow(db, k);
    StreamItem(db, e, user, hist, n, m, Ordered(MlsRanks(db))[k].id, missed);
  }

  lemma StreamInOrder(db: Db, e: Engine, user: string, hist: History, n: Counts, m: Counts, k: nat, l: nat,
      missed: set<string>)
    requires Linear(hist, user) && Tracked(db, e, user, hist, n, m, missed) && k < l < |PendingMls(db)|
    ensures PendingMls(db)[k].id in hist.at && PendingMls(db)[l].id in hist.at
    ensures var a, b := hist.at[PendingMls(db)[k].id], hist.at[PendingMls(db)[l].id];
            a.room == b.room ==> a.i < b.i
  {
    StreamItems(db, e, user, hist, n, m, k, missed);
    StreamItems(db, e, user, hist, n, m, l, missed);
    var ranks := Ordered(MlsRanks(db));
    if hist.at[ranks[k].id].room == hist.at[ranks[l].id].room {
      StreamOrder(hist, user, ranks, k, l);
    }
  }

  lemma StreamLacksNothing(db: Db, e: Engine, user: string, hist: History, n: Counts, m: Counts, missed: set<string>)
    requires Linear(hist, user) && Tracked(db, e, user, hist, n, m, missed)
    ensures AheadComplete(e, user, hist, n, m, PendingMls(db))
  {
    forall r, i | r in hist.rooms && r in e.device.groups && m[r] <= i < n[r] && i < |hist.rooms[r]|
        && Important(hist.rooms[r][i], user)
      ensures exists k :: 0 <= k < |PendingMls(db)| && PendingMls(db)[k].id == hist.rooms[r][i].eventId
    {
      var k := StreamComplete(db, e, user, hist, n, m, r, i, missed);
    }
  }

  lemma StreamIsHistory(db: Db, e: Engine, user: string, hist: History, n: Counts, m: Counts, missed: set<string>)
    requires Linear(hist, user) && Tracked(db, e, user, hist, n, m, missed)
    ensures AheadItems(user, hist, n, m, PendingMls(db))
  {
    forall k | 0 <= k < |PendingMls(db)| {
      StreamItems(db, e, user, hist, n, m, k, missed);
    }
  }

  lemma StreamIsAhead(db: Db, e: Engine, user: string, hist: History, n: Counts, m: Counts, missed: set<string>)
    requires Linear(hist, user) && Tracked(db, e, user, hist, n, m, missed)
    ensures Ahead(e, user, hist, n, m, PendingMls(db))
  {
    StreamIsHistory(db, e, user, hist, n, m, missed);
    StreamLacksNothing(db, e, user, hist, n, m, missed);
    forall k, l | 0 <= k < l < |PendingMls(db)| {
      StreamInOrder(db, e, user, hist, n, m, k, l, missed);
    }
  }

  lemma StreamOrder(hist: History, user: string, ranks: seq<Rank>, k: nat, l: nat)
    requires Linear(hist, user) && Ascending(ranks) && k < l < |ranks|
    requires ranks[k].id in hist.at && ranks[l].id in hist.at && hist.at[ranks[k].id].room == hist.at[ranks[l].id].room
    requires ranks[k].n == EventAt(hist, ranks[k].id).depth && ranks[l].n == EventAt(hist, ranks[l].id).depth
    ensures hist.at[ranks[k].id].i < hist.at[ranks[l].id].i
  {
    assert Below(ranks[k], ranks[l]);
    if hist.at[ranks[k].id].i == hist.at[ranks[l].id].i {
      BelowIrreflexive(ranks[k]);
    }
  }

  // --- Everything else that happens between passes -------------------------------------

  datatype Happening =
    | Arrives(batch: seq<Event>, upTo: Counts)
    | Welcomed(evs: seq<ToDevice>, verdicts: seq<Verdict>)
    | Passes(calls: seq<Call>)
    | Queues(txn: string, echo: string, room: string, body: string, ts: int)
    | Settles(txn: string, id: string)
    | Fails(txn: string)

  /** The store, the engine, how much of each room's history is stored, and the
      messages whose opening failed at its turn. */
  datatype Standing = Standing(db: Db, engine: Engine, stored: Counts, missed: set<string>)

  function Happen(s: Standing, user: string, x: Happening): Standing
  {
    match x
    case Arrives(batch, upTo) => s.(db := ApplyAll(s.db, batch), stored := upTo)
    case Welcomed(evs, verdicts) => s.(engine := ApplyToDevice(s.engine, evs, verdicts).0)
    case Passes(calls) =>
      var p := ProcessPending(s.db, s.engine, user, calls);
      s.(db := p.db, engine := p.engine, missed := s.missed + Missed(s.db, s.engine, user, PendingMls(s.db), calls))
    case Queues(txn, echo, room, body, ts) => s.(db := QueueSend(s.db, txn, echo, room, user, body, ts))
    case Settles(txn, id) => s.(db := ResolveSend(s.db, txn, id))
    case Fails(txn) => s.(db := FailSend(s.db, txn))
  }

  /** A batch brings, in any order and with any repetitions, events of a gap-free
      prefix of each history, and whatever else carries no MLS material; no server
      id is a provisional one. */
  ghost predicate GapFree(s: Standing, hist: History, user: string, batch: seq<Event>, upTo: Counts)
    requires Linear(hist, user) && s.stored.Keys == hist.rooms.Keys
  {
    && upTo.Keys == hist.rooms.Keys
    && (forall r | r in hist.rooms :: s.stored[r] <= upTo[r] <= |hist.rooms[r]|)
    && (forall k | 0 <= k < |batch| ::
          if batch[k].eventId in hist.at
          then batch[k] == EventAt(hist, batch[k].eventId)
            && hist.at[batch[k].eventId].i < upTo[hist.at[batch[k].eventId].room]
          else ItemOf(NewRow(batch[k])).None?)
    && (forall txn | txn in s.db.pending :: !CurrentState.Mentions(batch, s.db.pending[txn].echo))
    && (forall r, i | r in hist.rooms && s.stored[r] <= i < upTo[r] && i < |hist.rooms[r]|
         && Important(hist.rooms[r][i], user) ::
          CurrentState.Mentions(batch, hist.rooms[r][i].eventId))
  }

  /** Welcomes name the group inside and put this device at the epoch of the
      commit that added it. */
  ghost predicate Invites(e: Engine, hist: History, evs: seq<ToDevice>)
  {
    forall k | 0 <= k < |evs| ::
      && Named(evs[k])
      && (ForUs(e, evs[k]) && evs[k].welcome.value.room in hist.joinAt ==>
            evs[k].welcome.value.epoch == hist.joinAt[evs[k].welcome.value.room])
  }

  ghost predicate Possible(s: Standing, hist: History, user: string, x: Happening)
    requires Linear(hist, user) && s.stored.Keys == hist.rooms.Keys
  {
    match x
    case Arrives(batch, upTo) => GapFree(s, hist, user, batch, upTo)
    case Welcomed(evs, _) => Invites(s.engine, hist, evs)
    case Passes(calls) => CommitsLoad(s.db, s.engine, user, PendingMls(s.db), calls)
    case Queues(txn, echo, _, _, _) => echo !in s.db.events && echo !in hist.at && txn !in s.db.pending
    case Settles(_, id) => id in hist.at ==> !Important(EventAt(hist, id), user)
    case Fails(_) => true
  }

  lemma {:induction false} ArrivalEffect(db: Db, batch: seq<Event>)
    ensures var log := ApplyAll(db, batch).events;
            && ApplyAll(db, batch).pending == db.pending
            && (forall id :: id in log <==> id in db.events || CurrentState.Mentions(batch, id))
            && (forall id | id in db.events :: log[id] == db.events[id])
            && (forall id | id in log && id !in db.events :: exists k ::
                 0 <= k < |batch| && batch[k].eventId == id && log[id] == NewRow(batch[k]))
  {
    if batch != [] {
      var last := |batch| - 1;
      var front := batch[..last];
      ArrivalEffect(db, front);
      var mid, log := ApplyAll(db, front).events, ApplyAll(db, batch).events;
      forall id ensures CurrentState.Mentions(batch, id)
           <==> CurrentState.Mentions(front, id) || id == batch[last].eventId {
        if k :| 0 <= k < |front| && front[k].eventId == id {
          assert batch[k].eventId == id;
        }
        if k :| 0 <= k < |batch| && batch[k].eventId == id {
          assert k < last ==> front[k].eventId == id;
        }
      }
      forall id | id in log && id !in db.events
        ensures exists k :: 0 <= k < |batch| && batch[k].eventId == id && log[id] == NewRow(batch[k])
      {
        if id in mid {
          var k :| 0 <= k < |front| && front[k].eventId == id && mid[id] == NewRow(front[k]);
          assert batch[k] == front[k];
        } else {
          assert batch[last].eventId == id;
        }
      }
    }
  }

  lemma ArrivedRow(s: Standing, user: string, hist: History, batch: seq<Event>, upTo: Counts, r: string, i: nat)
    requires Linear(hist, user) && s.stored.Keys == hist.rooms.Keys && GapFree(s, hist, user, batch, upTo)
    requires r in hist.rooms && i < |hist.rooms[r]| && Important(hist.rooms[r][i], user)
    requires hist.rooms[r][i].eventId in s.db.events <==> i < s.stored[r]
    ensures var ev, log := hist.rooms[r][i], ApplyAll(s.db, batch).events;
            && (ev.eventId in log <==> i < upTo[r])
            && (i < s.stored[r] ==> log[ev.eventId] == s.db.events[ev.eventId])
            && (s.stored[r] <= i < upTo[r] ==> log[ev.eventId] == NewRow(ev))
  {
    hide LinearAt, NewRow, ItemOf;
    ArrivalEffect(s.db, batch);
    var ev, db' := hist.rooms[r][i], ApplyAll(s.db, batch);
    assert hist.at[ev.eventId] == Place(r, i);
    if ev.eventId in db'.events && ev.eventId !in s.db.events {
      var k :| 0 <= k < |batch| && batch[k].eventId == ev.eventId && db'.events[ev.eventId] == NewRow(batch[k]);
      assert batch[k] == ev;
    }
    if s.stored[r] <= i < upTo[r] {
      assert CurrentState.Mentions(batch, ev.eventId);
    }
  }

  lemma ArrivalInRoom(s: Standing, user: string, hist: History, m: Counts, batch: seq<Event>, upTo: Counts, r: string)
    requires Linear(hist, user) && Tracked(s.db, s.engine, user, hist, s.stored, m, s.missed)
    requires GapFree(s, hist, user, batch, upTo) && r in hist.rooms
    ensures RoomTracked(ApplyAll(s.db, batch), s.engine, user, r, hist.rooms[r], hist.joinAt[r], upTo[r], m[r],
             s.missed)
  {
    hide LinearAt, RowsFromHistory, EchoesApart, Handled, ItemOf, Important;
    var h, db' := hist.rooms[r], ApplyAll(s.db, batch);
    assert RoomTracked(s.db, s.engine, user, r, h, hist.joinAt[r], s.stored[r], m[r], s.missed);
    forall i: nat | i < |h| && Important(h[i], user)
      ensures h[i].eventId in db'.events <==> i < upTo[r]
      ensures i < s.stored[r] ==> db'.events[h[i].eventId] == s.db.events[h[i].eventId]
      ensures s.stored[r] <= i < upTo[r] ==> db'.events[h[i].eventId] == NewRow(h[i])
    {
      ArrivedRow(s, user, hist, batch, upTo, r, i);
    }
  }

  lemma ArrivalRows(s: Standing, user: string, hist: History, batch: seq<Event>, upTo: Counts, id: string)
    requires Linear(hist, user) && s.stored.Keys == hist.rooms.Keys
    requires RowsFromHistory(s.db, hist, user) && GapFree(s, hist, user, batch, upTo)
    requires id in ApplyAll(s.db, batch).events
    ensures var row := ApplyAll(s.db, batch).events[id];
            && row.ev.eventId == id
            && (Unhandled(row) && ItemOf(row).Some? ==> id in hist.at && row.ev == EventAt(hist, id))
  {
    ArrivalEffect(s.db, batch);
    if id !in s.db.events {
      var k :| 0 <= k < |batch| && batch[k].eventId == id && ApplyAll(s.db, batch).events[id] == NewRow(batch[k]);
    }
  }

  lemma ArrivalTracks(s: Standing, user: string, hist: History, m: Counts, batch: seq<Event>, upTo: Counts)
    requires Linear(hist, user) && Tracked(s.db, s.engine, user, hist, s.stored, m, s.missed)
    requires GapFree(s, hist, user, batch, upTo)
    ensures Tracked(ApplyAll(s.db, batch), s.engine, user, hist, upTo, m, s.missed)
  {
    var db' := ApplyAll(s.db, batch);
    forall r | r in hist.rooms {
      ArrivalInRoom(s, user, hist, m, batch, upTo, r);
    }
    forall id | id in db'.events {
      ArrivalRows(s, user, hist, batch, upTo, id);
    }
    assert EchoesApart(db', hist) by {
      ArrivalEffect(s.db, batch);
    }
  }

  lemma {:induction false} WelcomeEffect(e: Engine, hist: History, evs: seq<ToDevice>, vs: seq<Verdict>)
    requires Invites(e, hist, evs)
    ensures var e' := ApplyToDevice(e, evs, vs).0;
            && e'.device.user == e.device.user
            && (forall r | r in e.device.groups :: r in e'.device.groups && e'.device.groups[r] == e.device.groups[r])
            && (forall r | r in e'.device.groups && r !in e.device.groups && r in hist.joinAt ::
                 e'.device.groups[r] == Group(hist.joinAt[r], 0, {}))
    decreases |evs|
  {
    if evs != [] {
      var tail := evs[1..];
      assert forall k | 0 <= k < |tail| :: tail[k] == evs[k + 1];
      assert Named(evs[0]);
      var e1 := Receive(e, evs[0], VerdictNow(vs)).0;
      assert Invites(e1, hist, tail) by {
        forall k | 0 <= k < |tail| ensures Named(tail[k]) && ForUs(e1, tail[k]) == ForUs(e, evs[k + 1]) {
        }
      }
      WelcomeEffect(e1, hist, tail, VerdictLater(vs));
    }
  }

  lemma WelcomeTracks(s: Standing, user: string, hist: History, m: Counts, evs: seq<ToDevice>, vs: seq<Verdict>)
    requires Linear(hist, user) && Tracked(s.db, s.engine, user, hist, s.stored, m, s.missed)
    requires Invites(s.engine, hist, evs)
    ensures Tracked(s.db, ApplyToDevice(s.engine, evs, vs).0, user, hist, s.stored, m, s.missed)
  {
    WelcomeEffect(s.engine, hist, evs, vs);
    var e' := ApplyToDevice(s.engine, evs, vs).0;
    forall r | r in hist.rooms
      ensures RoomTracked(s.db, e', user, r, hist.rooms[r], hist.joinAt[r], s.stored[r], m[r], s.missed)
    {
      assert RoomTracked(s.db, s.engine, user, r, hist.rooms[r], hist.joinAt[r], s.stored[r], m[r], s.missed);
      if r !in s.engine.device.groups {
        assert hist.rooms[r][..0] == [];
      }
    }
  }

  /** Our own queue never touches what a pass must get right. */
  ghost predicate QueueOnly(db: Db, db': Db, hist: History, user: string)
    requires Linear(hist, user)
  {
    forall id | id in hist.at && Important(EventAt(hist, id), user) ::
      && (id in db'.events <==> id in db.events)
      && (id in db.events ==> db'.events[id] == db.events[id])
  }

  lemma QueueTracks(s: Standing, db': Db, user: string, hist: History, m: Counts)
    requires Linear(hist, user) && Tracked(s.db, s.engine, user, hist, s.stored, m, s.missed)
    requires QueueOnly(s.db, db', hist, user) && RowsFromHistory(db', hist, user) && EchoesApart(db', hist)
    ensures Tracked(db', s.engine, user, hist, s.stored, m, s.missed)
  {
    forall r | r in hist.rooms
      ensures RoomTracked(db', s.engine, user, r, hist.rooms[r], hist.joinAt[r], s.stored[r], m[r], s.missed)
    {
      var h := hist.rooms[r];
      forall i | 0 <= i < |h| && Important(h[i], user)
        ensures h[i].eventId in db'.events <==> h[i].eventId in s.db.events
        ensures h[i].eventId in s.db.events ==> db'.events[h[i].eventId] == s.db.events[h[i].eventId]
      {
        assert hist.at[h[i].eventId] == Place(r, i);
      }
      OtherRoomKeeps(s.db, s.engine, db', s.engine, user, r, h, hist.joinAt[r], s.stored[r], m[r], s.missed);
    }
  }

  lemma EchoAdded(db: Db, db': Db, user: string, hist: History, txn: string, p: Pending, row: Row)
    requires Linear(hist, user) && RowsFromHistory(db, hist, user) && EchoesApart(db, hist)
    requires p.echo !in db.events && p.echo !in hist.at && txn !in db.pending
    requires db'.events == db.events[p.echo := row] && row.ev.eventId == p.echo && row.ev.ty == Message
    requires db'.pending == db.pending[txn := p]
    ensures QueueOnly(db, db', hist, user) && RowsFromHistory(db', hist, user) && EchoesApart(db', hist)
  {
    hide Linear, Important, ItemOf;
    assert !Unhandled(row);
    assert QueueOnly(db, db', hist, user);
    assert RowsFromHistory(db', hist, user);
    assert EchoesApart(db', hist);
  }

  lemma QueueingKeeps(db: Db, user: string, hist: History, txn: string, echo: string, room: string, body: string,
      ts: int)
    requires Linear(hist, user) && RowsFromHistory(db, hist, user) && EchoesApart(db, hist)
    requires echo !in db.events && echo !in hist.at && txn !in db.pending
    ensures var db' := QueueSend(db, txn, echo, room, user, body, ts);
            QueueOnly(db, db', hist, user) && RowsFromHistory(db', hist, user) && EchoesApart(db', hist)
  {
    hide Linear, RowsFromHistory, EchoesApart, QueueOnly, NextDepth;
    var row := EchoRow(echo, room, user, body, ts, NextDepth(db.events, room));
    EchoAdded(db, QueueSend(db, txn, echo, room, user, body, ts), user, hist, txn, Pending(room, body, echo, ts), row);
  }

  lemma PromotedRow(r: Row, id: string)
    requires r.ev.ty == Message
    ensures Promote(r, id).ev.eventId == id && Promote(r, id).ev.ty == Message && !Unhandled(Promote(r, id))
  {
  }

  lemma SettledRows(db: Db, db': Db, user: string, hist: History, echo: string, id: string)
    requires Linear(hist, user) && RowsFromHistory(db, hist, user) && EchoesApart(db, hist)
    requires echo !in hist.at && (id in hist.at ==> !Important(EventAt(hist, id), user))
    requires forall e | e in db'.pending :: e in db.pending && db'.pending[e] == db.pending[e]
    requires forall e | e in db.events && e != echo :: e in db'.events
    requires forall e | e in db'.events && e != id :: e in db.events && db'.events[e] == db.events[e]
    requires id in db'.events ==>
               && db'.events[id].ev.eventId == id
               && (Unhandled(db'.events[id]) ==> id in db.events && db'.events[id] == db.events[id])
               && (db'.events[id].ev.ty == Message || (id in db.events && db'.events[id].ev == db.events[id].ev))
    ensures QueueOnly(db, db', hist, user) && RowsFromHistory(db', hist, user) && EchoesApart(db', hist)
  {
    hide Linear, Important, ItemOf, Unhandled;
    assert QueueOnly(db, db', hist, user);
    assert RowsFromHistory(db', hist, user);
    assert EchoesApart(db', hist);
  }

  lemma SettlingKeeps(db: Db, user: string, hist: History, txn: string, id: string)
    requires Linear(hist, user) && RowsFromHistory(db, hist, user) && EchoesApart(db, hist)
    requires id in hist.at ==> !Important(EventAt(hist, id), user)
    ensures var db' := ResolveSend(db, txn, id);
            QueueOnly(db, db', hist, user) && RowsFromHistory(db', hist, user) && EchoesApart(db', hist)
  {
    if txn in db.pending {
      var db' := ResolveSend(db, txn, id);
      ResolveEffect(db, txn, id);
      if db.pending[txn].echo in db.events {
        PromotedRow(db.events[db.pending[txn].echo], id);
      }
      SettledRows(db, db', user, hist, db.pending[txn].echo, id);
    }
  }

  lemma FailingKeeps(db: Db, user: string, hist: History, txn: string)
    requires Linear(hist, user) && RowsFromHistory(db, hist, user) && EchoesApart(db, hist)
    ensures var db' := FailSend(db, txn);
            QueueOnly(db, db', hist, user) && RowsFromHistory(db', hist, user) && EchoesApart(db', hist)
  {
    hide Linear, Important, ItemOf;
    var db' := FailSend(db, txn);
    assert QueueOnly(db, db', hist, user);
    assert RowsFromHistory(db', hist, user);
    assert EchoesApart(db', hist);
  }

  lemma HappeningTracks(s: Standing, user: string, hist: History, m: Counts, x: Happening) returns (m': Counts)
    requires Linear(hist, user) && Tracked(s.db, s.engine, user, hist, s.stored, m, s.missed)
             && Possible(s, hist, user, x)
    ensures var s' := Happen(s, user, x);
            && Tracked(s'.db, s'.engine, user, hist, s'.stored, m', s'.missed)
            && (x.Passes? && !ProcessPending(s.db, s.engine, user, x.calls).stopped ==>
                  forall r | r in hist.rooms && r in s'.engine.device.groups :: m'[r] == s'.stored[r])
  {
    m' := m;
    match x
    case Arrives(batch, upTo) => ArrivalTracks(s, user, hist, m, batch, upTo);
    case Welcomed(evs, verdicts) => WelcomeTracks(s, user, hist, m, evs, verdicts);
    case Passes(calls) =>
      StreamIsAhead(s.db, s.engine, user, hist, s.stored, m, s.missed);
      m' := PassTracks(s.db, s.engine, user, hist, s.stored, m, PendingMls(s.db), calls, s.missed);
    case Queues(txn, echo, room, body, ts) =>
      QueueingKeeps(s.db, user, hist, txn, echo, room, body, ts);
      QueueTracks(s, Happen(s, user, x).db, user, hist, m);
    case Settles(txn, id) =>
      SettlingKeeps(s.db, user, hist, txn, id);
      QueueTracks(s, Happen(s, user, x).db, user, hist, m);
    case Fails(txn) =>
      FailingKeeps(s.db, user, hist, txn);
      QueueTracks(s, Happen(s, user, x).db, user, hist, m);
  }

  function HappenAll(s: Standing, user: string, xs: seq<Happening>): Standing
    decreases |xs|
  {
    if xs == [] then s else HappenAll(Happen(s, user, xs[0]), user, xs[1..])
  }

  ghost predicate PossibleRun(s: Standing, hist: History, user: string, xs: seq<Happening>)
    requires Linear(hist, user)
    decreases |xs|
  {
    xs == [] || (s.stored.Keys == hist.rooms.Keys && Possible(s, hist, user, xs[0])
      && PossibleRun(Happen(s, user, xs[0]), hist, user, xs[1..]))
  }

  lemma {:induction false} RunTracks(s: Standing, user: string, hist: History, m: Counts, xs: seq<Happening>)
      returns (m': Counts)
    requires Linear(hist, user) && Tracked(s.db, s.engine, user, hist, s.stored, m, s.missed)
             && PossibleRun(s, hist, user, xs)
    ensures var s' := HappenAll(s, user, xs);
            Tracked(s'.db, s'.engine, user, hist, s'.stored, m', s'.missed)
    decreases |xs|
  {
    m' := m;
    if xs != [] {
      var m1 := HappeningTracks(s, user, hist, m, xs[0]);
      m' := RunTracks(Happen(s, user, xs[0]), user, hist, m1, xs[1..]);
    }
  }

  lemma {:induction false} LastHappening(s: Standing, hist: History, user: string, xs: seq<Happening>, x: Happening)
    requires Linear(hist, user) && PossibleRun(s, hist, user, xs + [x])
    ensures PossibleRun(s, hist, user, xs) && HappenAll(s, user, xs + [x]) == Happen(HappenAll(s, user, xs), user, x)
    ensures HappenAll(s, user, xs).stored.Keys == hist.rooms.Keys && Possible(HappenAll(s, user, xs), hist, user, x)
    decreases |xs|
  {
    hide Happen, Possible, Linear;
    if xs == [] {
      assert (xs + [x])[1..] == [];
    } else {
      assert (xs + [x])[1..] == xs[1..] + [x] && (xs + [x])[0] == xs[0];
      LastHappening(Happen(s, user, xs[0]), hist, user, xs[1..], x);
    }
  }

  ghost function Newcomer(hist: History, user: string): Standing
  {
    Standing(EMPTY_DB, Engine(Device(user, map[]), Device(user, map[])), map r | r in hist.rooms :: 0, {})
  }

  /** Every held group is at the epoch of the join or of the stored commits,
      whichever is later; every stored message of others sealed since the join is
      readable with its true text if and only if its opening did not fail at its
      turn, and what is not readable is given up. */
  ghost predicate CaughtUp(s: Standing, hist: History, user: string)
    requires Linear(hist, user) && s.stored.Keys == hist.rooms.Keys
  {
    forall r | r in hist.rooms && r in s.engine.device.groups ::
      var h, j, n := hist.rooms[r], hist.joinAt[r], s.stored[r];
      && n <= |h|
      && s.engine.device.groups[r].epoch == Max(j, Commits(h[..n]))
      && forall i | 0 <= i < n && h[i].ty == Encrypted && h[i].sender != user ::
           && h[i].eventId in s.db.events && s.db.events[h[i].eventId].ev == h[i]
           && (s.db.events[h[i].eventId].decrypted.Some? <==> Commits(h[..i]) >= j && h[i].eventId !in s.missed)
           && if s.db.events[h[i].eventId].decrypted.Some?
              then s.db.events[h[i].eventId].decrypted == CipherOf(h[i]).text
              else s.db.events[h[i].eventId].state == GaveUp
  }

  lemma NewcomerIsTracked(hist: History, user: string)
    requires Linear(hist, user)
    ensures var s := Newcomer(hist, user); Tracked(s.db, s.engine, user, hist, s.stored, s.stored, s.missed)
  {
  }

  lemma AskedNeverStops(db: Db, e: Engine, user: string, calls: seq<Call>)
    requires forall k | 0 <= k < |calls| :: calls[k].ask
    ensures !ProcessPending(db, e, user, calls).stopped
  {
    StopsIff(db, e, user, PendingMls(db), calls);
  }

  /** However histories, Welcomes, our own sends and earlier passes interleave, and
      whatever writes fail, every pass whose questions are all answered leaves the
      device caught up in all its rooms. */
  lemma EveryPassCatchesUp(hist: History, user: string, xs: seq<Happening>, calls: seq<Call>)
    requires Linear(hist, user) && PossibleRun(Newcomer(hist, user), hist, user, xs + [Passes(calls)])
    requires forall k | 0 <= k < |calls| :: calls[k].ask
    ensures var s := HappenAll(Newcomer(hist, user), user, xs + [Passes(calls)]);
            s.stored.Keys == hist.rooms.Keys && CaughtUp(s, hist, user)
  {
    hide Linear, Tracked, PossibleRun, HappenAll, Possible, Happen, CaughtUp, Newcomer;
    var s0 := Newcomer(hist, user);
    LastHappening(s0, hist, user, xs, Passes(calls));
    NewcomerIsTracked(hist, user);
    var m := RunTracks(s0, user, hist, s0.stored, xs);
    var s1 := HappenAll(s0, user, xs);
    var m' := HappeningTracks(s1, user, hist, m, Passes(calls));
    AskedNeverStops(s1.db, s1.engine, user, calls);
    CaughtUpIsTracked(Happen(s1, user, Passes(calls)), user, hist, m');
  }

  lemma CaughtUpIsTracked(s: Standing, user: string, hist: History, m: Counts)
    requires Linear(hist, user) && Tracked(s.db, s.engine, user, hist, s.stored, m, s.missed)
    requires forall r | r in hist.rooms && r in s.engine.device.groups :: m[r] == s.stored[r]
    ensures CaughtUp(s, hist, user)
  {
    forall r | r in hist.rooms && r in s.engine.device.groups
      ensures RoomTracked(s.db, s.engine, user, r, hist.rooms[r], hist.joinAt[r], s.stored[r], s.stored[r], s.missed)
    {
    }
  }

  // --- Why the failures matter ----------------------------------------------------------

  function HeldAt(user: string, room: string, epoch: nat): Engine
  {
    var d := Device(user, map[room := Group(epoch, 0, {})]);
    Engine(d, d)
  }

  function OneRow(ev: Event): Db
  {
    EMPTY_DB.(events := map[ev.eventId := NewRow(ev)])
  }

  /** One message of somebody else, sealed at epoch 0. */
  function OneMessage(user: string, room: string, text: string): Event
  {
    var from := user + "'";
    Event("$a", room, from, Encrypted, None, 0, 1,
      ToWire("$a", room, from, Encrypted, 0, 1, SealedContent(Sealed(room, 0, from, 0, Some(text)))))
  }

  function OneItem(user: string, room: string, text: string): MlsItem
  {
    MessageItem("$a", room, user + "'", Genuine(Sealed(room, 0, user + "'", 0, Some(text))))
  }

  ghost function OneHistory(user: string, room: string, text: string): History
  {
    History(map[room := [OneMessage(user, room, text)]], map["$a" := Place(room, 0)], map[room := 0])
  }

  lemma OneIsLinear(user: string, room: string, text: string)
    ensures Linear(OneHistory(user, room, text), user)
  {
    assert |user + "'"| != |user|;
    assert LinearAt([OneMessage(user, room, text)], 0, room, user);
  }

  lemma OneInStream(user: string, room: string, text: string)
    ensures PendingMls(OneRow(OneMessage(user, room, text))) == [OneItem(user, room, text)]
  {
    var db := OneRow(OneMessage(user, room, text));
    var ranks := [Rank(1, "$a")];
    assert db.events.Keys == {"$a"} && db.events["$a"] == NewRow(OneMessage(user, room, text));
    InStream(db, "$a");
    assert ranks[0] in MlsRanks(db);
    forall q ensures q in ranks <==> q in MlsRanks(db) {
    }
    AscendingUnique(Ordered(MlsRanks(db)), ranks);
  }

  lemma LoneItem(db: Db, e: Engine, user: string, item: MlsItem, io: Io)
    ensures var one, all := ProcessItem(db, e, user, item, io), ProcessItems(db, e, user, [item], [Call(true, io)]);
            all.db == one.db && all.engine == one.engine
    ensures Missed(db, e, user, [item], [Call(true, io)]) == MissedAt(db, e, user, item, io)
    ensures CommitsLoad(db, e, user, [item], [Call(true, io)]) <==> CommitLoads(e, item, io)
  {
    hide ProcessItem, MissedAt, CommitLoads;
    assert [item][1..] == [] && [Call(true, io)][1..] == [];
  }

  /** The message arrives, the Welcome is joined, and a pass comes to the message. */
  ghost function OneRun(user: string, room: string, text: string, io: Io): seq<Happening>
  {
    [Arrives([OneMessage(user, room, text)], map[room := 1]),
     Welcomed([ToDevice(true, Some(Invitation(room, 0, user)), Some(room))], []),
     Passes([Call(true, io)])]
  }

  lemma OneArrives(user: string, room: string, text: string)
    ensures var s, hist := Newcomer(OneHistory(user, room, text), user), OneHistory(user, room, text);
            && GapFree(s, hist, user, [OneMessage(user, room, text)], map[room := 1])
            && ApplyAll(s.db, [OneMessage(user, room, text)]) == OneRow(OneMessage(user, room, text))
  {
    var s, hist, ev := Newcomer(OneHistory(user, room, text), user), OneHistory(user, room, text),
        OneMessage(user, room, text);
    assert [ev][..0] == [] && ApplyAll(s.db, []) == s.db;
    assert CurrentState.Mentions([ev], ev.eventId) by { assert [ev][0].eventId == ev.eventId; }
    OneIsLinear(user, room, text);
  }

  lemma OneJoins(user: string, room: string)
    ensures var list := [ToDevice(true, Some(Invitation(room, 0, user)), Some(room))];
            var e := Engine(Device(user, map[]), Device(user, map[]));
            ApplyToDevice(e, list, []).0 == HeldAt(user, room, 0)
  {
    assert [ToDevice(true, Some(Invitation(room, 0, user)), Some(room))][1..] == [];
  }

  /** What the pass makes of it. */
  lemma OneIsTried(user: string, room: string, text: string, io: Io)
    ensures var db, e, item := OneRow(OneMessage(user, room, text)), HeldAt(user, room, 0), OneItem(user, room, text);
            var out := ProcessPending(db, e, user, [Call(true, io)]);
            && CommitsLoad(db, e, user, PendingMls(db), [Call(true, io)])
            && CanOpen(e.device, room, item.cipher)
            && Missed(db, e, user, PendingMls(db), [Call(true, io)]) == (if io.Works? then {} else {"$a"})
            && "$a" in out.db.events
            && (io.Works? <==> out.db.events["$a"].decrypted == Some(text))
            && (!io.Works? ==> out.db.events["$a"].state == GaveUp && out.db.events["$a"].decrypted.None?)
            && (CanOpen(out.engine.device, room, item.cipher) <==> io.LoadFails?)
  {
    assert |user + "'"| != |user|;
    OneInStream(user, room, text);
    hide PendingMls, ProcessItems, Missed, CommitsLoad;
    LoneItem(OneRow(OneMessage(user, room, text)), HeldAt(user, room, 0), user, OneItem(user, room, text), io);
  }

  /** Up to the pass. */
  lemma OneBegins(user: string, room: string, text: string, io: Io)
    requires Linear(OneHistory(user, room, text), user)
    ensures var hist, xs := OneHistory(user, room, text), OneRun(user, room, text, io);
            var s0 := Newcomer(hist, user);
            var s1 := Standing(OneRow(OneMessage(user, room, text)), s0.engine, map[room := 1], {});
            && Happen(s0, user, xs[0]) == s1 && Possible(s0, hist, user, xs[0])
            && Happen(s1, user, xs[1]) == s1.(engine := HeldAt(user, room, 0)) && Possible(s1, hist, user, xs[1])
  {
    hide Linear, GapFree, ApplyAll, ApplyToDevice, OneMessage;
    OneArrives(user, room, text);
    OneJoins(user, room);
  }

  lemma OneEnds(user: string, room: string, text: string, io: Io)
    requires Linear(OneHistory(user, room, text), user)
    ensures var x, hist := Passes([Call(true, io)]), OneHistory(user, room, text);
            var s := Standing(OneRow(OneMessage(user, room, text)), HeldAt(user, room, 0), map[room := 1], {});
            var s' := Happen(s, user, x);
            && Possible(s, hist, user, x) && HasGroup(s'.engine, room) && "$a" in s'.db.events
            && (s'.db.events["$a"].decrypted == Some(text) <==> io.Works?)
            && (!io.Works? ==> s'.db.events["$a"].state == GaveUp && s'.db.events["$a"].decrypted.None?)
            && (CanOpen(s'.engine.device, room, OneItem(user, room, text).cipher) <==> io.LoadFails?)
  {
    hide Linear, ProcessPending, PendingMls, CommitsLoad, Missed, CanOpen, OneMessage, OneItem;
    OneIsTried(user, room, text, io);
    GroupHeldAfter(Standing(OneRow(OneMessage(user, room, text)), HeldAt(user, room, 0), map[room := 1], {}), user,
      Passes([Call(true, io)]), room);
  }

  lemma NobodyYet(user: string, room: string, text: string)
    ensures var hist := OneHistory(user, room, text);
            Newcomer(hist, user).stored.Keys == hist.rooms.Keys == {room} == map[room := 1].Keys
  {
    hide OneMessage;
  }

  /** A message whose write fails, or whose group fails to load, when its turn comes
      is given up without its text; after a failed write it can never be opened. */
  lemma FailedOpeningLosesMessage(user: string, room: string, text: string, io: Io)
    ensures var hist, xs := OneHistory(user, room, text), OneRun(user, room, text, io);
            && Linear(hist, user) && PossibleRun(Newcomer(hist, user), hist, user, xs)
            && var s := HappenAll(Newcomer(hist, user), user, xs);
               && HasGroup(s.engine, room) && "$a" in s.db.events
               && (s.db.events["$a"].decrypted == Some(text) <==> io.Works?)
               && (!io.Works? ==> s.db.events["$a"].state == GaveUp && s.db.events["$a"].decrypted.None?)
               && (CanOpen(s.engine.device, room, OneItem(user, room, text).cipher) <==> io.LoadFails?)
  {
    hide Linear, Happen, Possible, HappenAll, PossibleRun, Newcomer, OneHistory, CanOpen, OneMessage, OneItem, OneRow,
        HeldAt, HasGroup;
    var hist, xs := OneHistory(user, room, text), OneRun(user, room, text, io);
    var s0 := Newcomer(hist, user);
    var s1 := Standing(OneRow(OneMessage(user, room, text)), s0.engine, map[room := 1], {});
    OneIsLinear(user, room, text);
    NobodyYet(user, room, text);
    OneBegins(user, room, text, io);
    OneEnds(user, room, text, io);
    RunOfThree(s0, s1, s1.(engine := HeldAt(user, room, 0)), hist, user, xs);
  }

  lemma GroupHeldAfter(s: Standing, user: string, x: Happening, room: string)
    requires x.Passes? && HasGroup(s.engine, room)
    ensures HasGroup(Happen(s, user, x).engine, room)
  {
    hide PendingMls;
    ItemsKeepGroups(s.db, s.engine, user, PendingMls(s.db), x.calls, room);
  }

  lemma {:induction false} ItemsKeepGroups(db: Db, e: Engine, user: string, items: seq<MlsItem>, calls: seq<Call>,
      room: string)
    requires HasGroup(e, room)
    ensures HasGroup(ProcessItems(db, e, user, items, calls).engine, room)
    decreases |items|
  {
    hide ProcessItem;
    if items != [] && CallNow(calls).ask {
      var one := ProcessItem(db, e, user, items[0], CallNow(calls).io);
      ItemEffect(db, e, user, items[0], CallNow(calls).io);
      ItemsKeepGroups(one.db, one.engine, user, items[1..], CallLater(calls), room);
    }
  }

  lemma RunOfThree(s0: Standing, s1: Standing, s2: Standing, hist: History, user: string, xs: seq<Happening>)
    requires |xs| == 3 && Linear(hist, user) && Happen(s0, user, xs[0]) == s1 && Happen(s1, user, xs[1]) == s2
    requires s0.stored.Keys == s1.stored.Keys == s2.stored.Keys == hist.rooms.Keys
    requires Possible(s0, hist, user, xs[0]) && Possible(s1, hist, user, xs[1]) && Possible(s2, hist, user, xs[2])
    ensures PossibleRun(s0, hist, user, xs) && HappenAll(s0, user, xs) == Happen(s2, user, xs[2])
  {
    hide Linear, Happen, Possible;
    assert xs[1..][1..][1..] == [] && xs[1..][0] == xs[1] && xs[1..][1..][0] == xs[2];
    var s3 := Happen(s2, user, xs[2]);
    assert HappenAll(s3, user, []) == s3 && PossibleRun(s3, hist, user, []);
    assert HappenAll(s2, user, xs[1..][1..]) == s3 && PossibleRun(s2, hist, user, xs[1..][1..]);
    assert HappenAll(s1, user, xs[1..]) == s3 && PossibleRun(s1, hist, user, xs[1..]);
  }

  /** A commit whose group fails to load when its turn comes is consumed and never
      applied: the group stays behind. */
  lemma FailedLoadStrandsGroup(user: string, room: string, ev: Event, io: Io)
    requires ItemOf(NewRow(ev)) == Some(CommitItem(ev.eventId, room, ev.sender, Advance(room, 1, ev.sender)))
    requires ev.sender != user
    ensures var e := HeldAt(user, room, 1);
            var one := ProcessItem(OneRow(ev), e, user, ItemOf(NewRow(ev)).value, io);
            && one.db.events[ev.eventId].state == Done
            && (one.engine.device.groups[room].epoch == 2 <==> !io.LoadFails?)
  {
  }
}
