/** The four tables of the local store as values, and what each transaction does
    to them. The class in Store.dfy runs these transactions; the state machine in
    Machine.dfy interleaves them. */
module Tables {
  import opened Base
  import opened Order
  import opened Mls
  import opened Events

  datatype StateKey = StateKey(room: string, ty: EventType, key: string)

  datatype StateRow = StateRow(eventId: string, depth: int)

  /** A row of the outbound queue; `echo` is the provisional id of its local echo. */
  datatype Pending = Pending(room: string, body: string, echo: string, created: int)

  datatype Db = Db(
    events: map<string, Row>,
    roomState: map<StateKey, StateRow>,
    pending: map<string, Pending>,
    token: Option<string>)

  const EMPTY_DB := Db(map[], map[], map[], None)

  // --- Applying synced events -----------------------------------------------

  function ParseAll(ws: seq<Wire>): Result<seq<Event>>
  {
    if ws == [] then Ok([])
    else
      match FromWire(ws[0])
      case Malformed(f) => Malformed(f)
      case Ok(ev) =>
        match ParseAll(ws[1..])
        case Malformed(f) => Malformed(f)
        case Ok(evs) => Ok([ev] + evs)
  }

  function NewRow(ev: Event): Row
  {
    Row(ev, Confirmed, None, Untried)
  }

  function InsertEvent(events: map<string, Row>, ev: Event): map<string, Row>
  {
    if ev.eventId in events then events else events[ev.eventId := NewRow(ev)]
  }

  function KeyFor(ev: Event): StateKey
    requires ev.stateKey.Some?
  {
    StateKey(ev.roomId, ev.ty, ev.stateKey.value)
  }

  /** A state event takes its slot unless the incumbent is strictly deeper. */
  function FoldState(rs: map<StateKey, StateRow>, ev: Event): map<StateKey, StateRow>
  {
    if ev.stateKey.None? then rs
    else if KeyFor(ev) in rs && rs[KeyFor(ev)].depth > ev.depth then rs
    else rs[KeyFor(ev) := StateRow(ev.eventId, ev.depth)]
  }

  /** The fold runs even when the insert found the event already logged. */
  function ApplyOne(db: Db, ev: Event): Db
  {
    db.(events := InsertEvent(db.events, ev), roomState := FoldState(db.roomState, ev))
  }

  function ApplyAll(db: Db, evs: seq<Event>): Db
  {
    if evs == [] then db
    else ApplyOne(ApplyAll(db, evs[..|evs| - 1]), evs[|evs| - 1])
  }

  function Inserted(db: Db, evs: seq<Event>): nat
  {
    if evs == [] then 0
    else
      var n := |evs| - 1;
      Inserted(db, evs[..n]) + (if evs[n].eventId in ApplyAll(db, evs[..n]).events then 0 else 1)
  }

  /** One malformed event aborts the whole batch. */
  function ApplyEvents(db: Db, ws: seq<Wire>): (Db, Result<nat>)
  {
    match ParseAll(ws)
    case Malformed(f) => (db, Malformed(f))
    case Ok(evs) => (ApplyAll(db, evs), Ok(Inserted(db, evs)))
  }

  // --- The outbound queue ---------------------------------------------------

  /** `COALESCE(MAX(n), 0)` over a set of ranks. */
  function Highest(s: set<Rank>): (m: int)
    ensures s == {} ==> m == 0
    ensures s != {} ==> (exists q :: q in s && q.n == m) && forall q | q in s :: q.n <= m
  {
    if s == {} then 0
    else
      GreatestExistsUniquely(s);
      var top :| top in s && Greatest(top, s);
      top.n
  }

  function DepthsIn(events: map<string, Row>, room: string): set<Rank>
  {
    set id | id in events && events[id].ev.roomId == room :: Rank(events[id].ev.depth, id)
  }

  /** One past the deepest event of the room; 1 in an empty room. */
  function NextDepth(events: map<string, Row>, room: string): int
  {
    Highest(DepthsIn(events, room)) + 1
  }

  function EchoRow(id: string, room: string, sender: string, body: string, ts: int, depth: int): Row
  {
    var w := ToWire(id, room, sender, Message, ts, depth, TextContent(body));
    Row(Event(id, room, sender, Message, None, ts, depth, w), Sending, None, Untried)
  }

  function QueueSend(db: Db, txn: string, echo: string, room: string, sender: string, body: string, ts: int): Db
  {
    var row := EchoRow(echo, room, sender, body, ts, NextDepth(db.events, room));
    db.(events := db.events[echo := row], pending := db.pending[txn := Pending(room, body, echo, ts)])
  }

  function Promote(r: Row, id: string): Row
  {
    r.(ev := r.ev.(eventId := id, payload := r.ev.payload.(eventId := Some(id))), local := Confirmed)
  }

  /** The echo under its new id: room, sender, type, time, place and content stay. */
  predicate IsPromoted(echo: Row, row: Row, id: string)
  {
    && row.ev.eventId == id && row.ev.roomId == echo.ev.roomId && row.ev.sender == echo.ev.sender
    && row.ev.ty == echo.ev.ty && row.ev.stateKey == echo.ev.stateKey
    && row.ev.ts == echo.ev.ts && row.ev.depth == echo.ev.depth
    && row.ev.payload.eventId == Some(id) && row.ev.payload.roomId == echo.ev.payload.roomId
    && row.ev.payload.sender == echo.ev.payload.sender && row.ev.payload.ty == echo.ev.payload.ty
    && row.ev.payload.stateKey == echo.ev.payload.stateKey && row.ev.payload.ts == echo.ev.payload.ts
    && row.ev.payload.depth == echo.ev.payload.depth && row.ev.payload.content == echo.ev.payload.content
    && row.ev.payload.rest == echo.ev.payload.rest
    && row.local == Confirmed && row.decrypted == echo.decrypted && row.state == echo.state
  }

  /** The row sync delivered first: a ciphertext takes the typed text, whatever a
      decryption made of it; anything else stays. */
  predicate IsCarriedOver(was: Row, row: Row, body: string)
  {
    && row.ev == was.ev && row.local == was.local
    && (if was.ev.ty == Encrypted then row.decrypted == Some(body) && row.state == Done
        else row.decrypted == was.decrypted && row.state == was.state)
  }

  function Rename(events: map<string, Row>, echo: string, id: string): map<string, Row>
  {
    if echo in events then (events - {echo})[id := Promote(events[echo], id)] else events
  }

  /** Sync was first: the typed text becomes the plaintext of the ciphertext row. */
  function CarryOver(r: Row, body: string): Row
  {
    if r.ev.ty == Encrypted then r.(decrypted := Some(body), state := Done) else r
  }

  function ResolveSend(db: Db, txn: string, id: string): Db
  {
    if txn !in db.pending then db
    else
      var p := db.pending[txn];
      var events :=
        if id in db.events then db.events[id := CarryOver(db.events[id], p.body)] - {p.echo}
        else Rename(db.events, p.echo, id);
      db.(events := events, pending := db.pending - {txn})
  }

  /** Row by row: the echo goes, the acknowledged id has a row if there was one to
      keep or promote, and no other row changes. */
  lemma ResolveEffect(db: Db, txn: string, id: string)
    requires txn in db.pending
    ensures var p, db' := db.pending[txn], ResolveSend(db, txn, id);
            && db'.pending == db.pending - {txn} && db'.roomState == db.roomState && db'.token == db.token
            && (forall e :: e in db'.events
                  <==> (e in db.events && e != p.echo) || (e == id && id !in db.events && p.echo in db.events))
            && (forall e | e in db'.events && e != id :: db'.events[e] == db.events[e])
            && (id in db'.events ==>
                  && db'.events[id] == (if id in db.events then CarryOver(db.events[id], p.body)
                                        else Promote(db.events[p.echo], id))
                  && if id in db.events then IsCarriedOver(db.events[id], db'.events[id], p.body)
                     else IsPromoted(db.events[p.echo], db'.events[id], id))
  {
  }

  function FailSend(db: Db, txn: string): Db
  {
    if txn !in db.pending then db
    else
      var echo := db.pending[txn].echo;
      var events := if echo in db.events then db.events[echo := db.events[echo].(local := Failed)] else db.events;
      db.(events := events, pending := db.pending - {txn})
  }

  datatype Queued = Queued(txn: string, room: string, body: string)

  function QueueRanks(db: Db): set<Rank>
  {
    set txn | txn in db.pending :: Rank(db.pending[txn].created, txn)
  }

  function PendingSends(db: Db): (q: seq<Queued>)
    ensures |q| == |Ordered(QueueRanks(db))|
  {
    var ranks := Ordered(QueueRanks(db));
    seq(|ranks|, i requires 0 <= i < |ranks| =>
      assert ranks[i] in QueueRanks(db);
      Queued(ranks[i].id, db.pending[ranks[i].id].room, db.pending[ranks[i].id].body))
  }

  lemma QueueAt(db: Db, i: nat)
    requires i < |PendingSends(db)|
    ensures var q := PendingSends(db)[i];
            && q.txn in db.pending && q == Queued(q.txn, db.pending[q.txn].room, db.pending[q.txn].body)
            && Ordered(QueueRanks(db))[i] == Rank(db.pending[q.txn].created, q.txn)
  {
    hide Ordered, Below;
    assert Ordered(QueueRanks(db))[i] in Ordered(QueueRanks(db));
    assert Ordered(QueueRanks(db))[i] in QueueRanks(db);
  }

  lemma InQueue(db: Db, txn: string) returns (i: nat)
    requires txn in db.pending
    ensures i < |PendingSends(db)| && PendingSends(db)[i].txn == txn
  {
    hide Ordered, Below;
    var rank := Rank(db.pending[txn].created, txn);
    assert rank in QueueRanks(db) && rank in Ordered(QueueRanks(db));
    i :| 0 <= i < |Ordered(QueueRanks(db))| && Ordered(QueueRanks(db))[i] == rank;
    QueueAt(db, i);
  }

  /** The queue lists every send once, oldest first, and by transaction id as text
      among those of one instant. */
  lemma QueueInOrder(db: Db)
    ensures var q := PendingSends(db);
            && (forall i | 0 <= i < |q| :: q[i].txn in db.pending
                  && q[i] == Queued(q[i].txn, db.pending[q[i].txn].room, db.pending[q[i].txn].body))
            && (forall txn | txn in db.pending :: exists i :: 0 <= i < |q| && q[i].txn == txn)
            && (forall i, j | 0 <= i < j < |q| ::
                  var a, b := db.pending[q[i].txn].created, db.pending[q[j].txn].created;
                  a < b || (a == b && TextLess(q[i].txn, q[j].txn)))
  {
    hide Ordered, PendingSends, QueueRanks, TextLess;
    var q := PendingSends(db);
    forall i: nat | i < |q| ensures q[i].txn in db.pending
        && q[i] == Queued(q[i].txn, db.pending[q[i].txn].room, db.pending[q[i].txn].body) {
      QueueAt(db, i);
    }
    forall txn | txn in db.pending ensures exists i :: 0 <= i < |q| && q[i].txn == txn {
      var i := InQueue(db, txn);
    }
    forall i: nat, j: nat | i < j < |q|
      ensures var a, b := db.pending[q[i].txn].created, db.pending[q[j].txn].created;
              a < b || (a == b && TextLess(q[i].txn, q[j].txn))
    {
      QueueAt(db, i);
      QueueAt(db, j);
      assert Below(Ordered(QueueRanks(db))[i], Ordered(QueueRanks(db))[j]);
    }
  }

  predicate HasPendingSend(db: Db, room: string)
  {
    exists txn :: txn in db.pending && db.pending[txn].room == room
  }

  // --- The plaintext cache and the inbound MLS stream -------------------------

  function SetDecrypted(db: Db, id: string, text: string): Db
  {
    if id in db.events
    then db.(events := db.events[id := db.events[id].(decrypted := Some(text), state := Done)]) else db
  }

  function SetState(db: Db, id: string, state: DecryptState): Db
  {
    if id in db.events then db.(events := db.events[id := db.events[id].(state := state)]) else db
  }

  datatype MlsItem =
    | MessageItem(id: string, room: string, sender: string, cipher: Cipher)
    | CommitItem(id: string, room: string, sender: string, commit: Commit)

  /** Encrypted events and commits not yet handled. */
  predicate Unhandled(r: Row)
  {
    (r.ev.ty == Encrypted || r.ev.ty == MlsCommit) && r.state == Untried
  }

  function ItemOf(r: Row): Option<MlsItem>
  {
    var c := r.ev.payload.content;
    if r.ev.ty == Encrypted && c.ciphertext.Some? then
      Some(MessageItem(r.ev.eventId, r.ev.roomId, r.ev.sender, c.ciphertext.value))
    else if r.ev.ty == MlsCommit && c.commit.Some? then
      Some(CommitItem(r.ev.eventId, r.ev.roomId, r.ev.sender, c.commit.value))
    else None
  }

  function MlsRanks(db: Db): set<Rank>
  {
    set id | id in db.events && Unhandled(db.events[id]) && ItemOf(db.events[id]).Some? ::
      Rank(db.events[id].ev.depth, id)
  }

  /** One stream over all rooms, in DAG order. */
  function PendingMls(db: Db): (items: seq<MlsItem>)
    ensures |items| == |Ordered(MlsRanks(db))|
  {
    var ranks := Ordered(MlsRanks(db));
    seq(|ranks|, i requires 0 <= i < |ranks| =>
      assert ranks[i] in MlsRanks(db);
      ItemOf(db.events[ranks[i].id]).value)
  }

  // --- Reads ----------------------------------------------------------------

  /** What a timeline page may contain: the room's rows, optionally strictly
      shallower than `before`, without the MLS plumbing. */
  predicate OnPage(r: Row, room: string, before: Option<int>)
  {
    && r.ev.roomId == room
    && r.ev.ty != MlsCommit
    && (before.Some? ==> r.ev.depth < before.value)
  }

  function PageRanks(db: Db, room: string, before: Option<int>): set<Rank>
  {
    set id | id in db.events && OnPage(db.events[id], room, before) :: Rank(db.events[id].ev.depth, id)
  }

  function Newest(ranks: seq<Rank>, limit: nat): seq<Rank>
  {
    if |ranks| <= limit then ranks else ranks[|ranks| - limit..]
  }

  /** The newest `limit` eligible rows, oldest first, as (depth, id). */
  function Page(db: Db, room: string, limit: nat, before: Option<int>): seq<Rank>
  {
    Newest(Ordered(PageRanks(db, room, before)), limit)
  }

  function ReadRow(r: Row): Result<Stored>
  {
    ParseStored(r.ev.payload, r.local, r.decrypted, r.state)
  }

  /** The event a state slot points at, if the log has it. */
  function CurrentRow(db: Db, key: StateKey): Option<Row>
  {
    if key in db.roomState && db.roomState[key].eventId in db.events
    then Some(db.events[db.roomState[key].eventId]) else None
  }

  function ReadState(db: Db, key: StateKey): Result<Option<Stored>>
  {
    match CurrentRow(db, key)
    case None => Ok(None)
    case Some(r) =>
      match ParseStored(r.ev.payload, Confirmed, None, Untried)
      case Malformed(f) => Malformed(f)
      case Ok(s) => Ok(Some(s))
  }

  predicate IsRoomEncrypted(db: Db, room: string)
  {
    exists k :: k in db.roomState && k.room == room && k.ty == Encryption
  }

  datatype Summary = Summary(room: string, name: Option<string>, topic: Option<string>, encrypted: bool,
      lastActivity: int)

  function Rooms(db: Db): set<string>
  {
    set k | k in db.roomState :: k.room
  }

  function ActivityIn(events: map<string, Row>, room: string): set<Rank>
  {
    set id | id in events && events[id].ev.roomId == room :: Rank(events[id].ev.ts, id)
  }

  function LastActivity(db: Db, room: string): int
  {
    Highest(ActivityIn(db.events, room))
  }

  function Summarise(db: Db, room: string): Summary
  {
    var name := CurrentRow(db, StateKey(room, Name, ""));
    var topic := CurrentRow(db, StateKey(room, Topic, ""));
    Summary(room,
            if name.Some? then name.value.ev.payload.content.name else None,
            if topic.Some? then topic.value.ev.payload.content.topic else None,
            IsRoomEncrypted(db, room),
            LastActivity(db, room))
  }

  function RoomRanks(db: Db): set<Rank>
  {
    set room | room in Rooms(db) :: Rank(-LastActivity(db, room), room)
  }

  /** Most recent activity first, then by room id. */
  function ListRooms(db: Db): seq<Summary>
  {
    var ranks := Ordered(RoomRanks(db));
    seq(|ranks|, i requires 0 <= i < |ranks| => Summarise(db, ranks[i].id))
  }
}
