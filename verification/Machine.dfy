/** Everything that can happen to one signed-in device, one store or engine call
    at a time: any number of sync loops and inbound passes, the one flush pass
    that holds the send lock, the server, and crashes between any two calls. The
    trace records what happened; nothing in the machine reads it. */
module Machine {
  import opened Base
  import opened Mls
  import opened Events
  import opened T = Tables
  import opened Inbound
  import opened Flush
  import opened Sync

  /** Provisional ids carry a prefix no server id has. */
  predicate IsLocal(id: string)
  {
    |id| >= 7 && id[..7] == "$local-"
  }

  /** The server dedups per room on the client's transaction id. */
  datatype TxnKey = TxnKey(room: string, txn: string)

  datatype Server = Server(events: map<string, Event>, dedup: map<TxnKey, string>)

  /** Where the flush pass stands on the first of its remaining sends. */
  datatype SendStage =
    | Choose                  // about to ask for the room's group
    | Seal                    // a group is held: about to encrypt
    | Mark                    // no group: about to ask for the encryption marker
    | Send(attempt: Attempt)  // about to transmit
    | Wait(attempt: Attempt)  // transmitted, awaiting the reply
    | Got(id: string)         // acknowledged: about to resolve
    | Bad                     // refused: about to fail it

  datatype Sender = Off | At(todo: seq<Queued>, stage: SendStage)

  /** Where an inbound pass stands on the first of its remaining items. */
  datatype PassStage =
    | Check                         // about to ask for the room's group
    | Own                           // our own message: about to look for a pending send
    | Work                          // about to call the engine
    | Write(text: Option<string>)   // about to record the outcome

  datatype Pass = Pass(todo: seq<MlsItem>, stage: PassStage)

  /** A sync loop between its store and engine calls. `path` is the responses that
      led to the token it polled with. */
  datatype Loop =
    | Polling(path: seq<Response>)
    | Folding(path: seq<Response>, resp: Response)
    | Joining(path: seq<Response>, resp: Response, i: nat, checked: bool)

  /** Every message ever queued, by transaction id, and what became of it;
      `owner` maps a provisional id back to its transaction. */
  datatype Ledger = Ledger(
    queued: map<string, Pending>,
    owner: map<string, string>,
    resolved: map<string, string>,
    failed: set<string>)

  /** The first line is the device and its surroundings; the rest is a record of
      what happened, which no step consults: `origin` is which of our sends a
      server event came from, `path` the responses that led to the stored token,
      `refused` the Welcomes the engine refused, `unasked` those skipped because the
      engine could not say if it holds their group, `unsealed` the events whose
      ciphertext it opened, `missed` those it would have opened had its load or its
      write not failed, `lost` those opened and then lost to a crash before
      they were written, `lossy` whether a crash has found memory ahead of the
      keystore. */
  datatype Sys = Sys(
    user: string, db: Db, engine: Engine, server: Server, net: set<Attempt>,
    sender: Sender, passes: map<nat, Pass>, loops: map<nat, Loop>,
    ledger: Ledger, origin: map<string, TxnKey>, path: seq<Response>, refused: set<ToDevice>,
    unasked: set<ToDevice>, unsealed: set<string>, missed: set<string>, lost: set<string>, lossy: bool)

  datatype Action =
    | Queue(txn: string, echo: string, room: string, body: string, ts: int)
    | FlushBegin
    | FlushChoose
    | FlushSeal(io: Io)
    | FlushEngineError
    | FlushMark
    | FlushTransmit
    | FlushAck
    | FlushTransient
    | FlushReject
    | FlushResolve
    | FlushFail
    | FlushCancel
    | ServerTake(attempt: Attempt, id: string, ts: int, depth: int)
    | ServerPublish(ev: Event)
    | Backfill(batch: seq<Wire>)
    | LoopBegin(p: nat)
    | LoopReply(p: nat, resp: Response)
    | LoopFold(p: nat)
    | LoopCheck(p: nat)
    | LoopAskError(p: nat)
    | LoopJoin(p: nat, accept: bool, put: bool)
    | LoopSave(p: nat)
    | LoopCancel(p: nat)
    | PassBegin(p: nat)
    | PassStep(p: nat, io: Io)
    | PassError(p: nat)
    | CreateRoomGroup(room: string, put: bool)
    | Invite(room: string, invitee: string, accept: bool, put: bool)
    | Crash

  function Init(user: string): Sys
  {
    var d := Device(user, map[]);
    Sys(user, EMPTY_DB, Engine(d, d), Server(map[], map[]), {}, Off, map[], map[],
        Ledger(map[], map[], map[], {}), map[], [], {}, {}, {}, {}, {}, false)
  }

  /** Whatever the server delivers is an event it has, or does not parse. */
  ghost predicate FromServer(server: Server, batch: seq<Wire>)
  {
    forall i | 0 <= i < |batch| && FromWire(batch[i]).Ok? ::
      FromWire(batch[i]).value.eventId in server.events
        && server.events[FromWire(batch[i]).value.eventId] == FromWire(batch[i]).value
  }

  predicate SenderAt(s: Sys, stage: SendStage)
  {
    s.sender.At? && s.sender.todo != [] && s.sender.stage == stage
  }

  function ToDeviceOf(resp: Response): seq<ToDevice>
  {
    if resp.toDevice.Some? then resp.toDevice.value else []
  }

  predicate JoiningAt(s: Sys, p: nat, checked: bool)
  {
    && p in s.loops && s.loops[p].Joining? && s.loops[p].checked == checked
    && s.loops[p].i < |ToDeviceOf(s.loops[p].resp)|
  }

  /** Only a Welcome that names its room is asked about. */
  predicate AsksFirst(ev: ToDevice)
  {
    ev.isWelcome && ev.welcome.Some? && ev.room.Some?
  }

  ghost predicate Enabled(s: Sys, a: Action)
  {
    match a
    case Queue(txn, echo, _, _, _) => txn !in s.ledger.queued && IsLocal(echo) && echo !in s.ledger.owner
    case FlushBegin => s.sender.Off?
    case FlushChoose => SenderAt(s, Choose)
    case FlushSeal(_) => SenderAt(s, Seal)
    case FlushEngineError => SenderAt(s, Choose) || SenderAt(s, Seal)
    case FlushMark => SenderAt(s, Mark)
    case FlushTransmit => s.sender.At? && s.sender.todo != [] && s.sender.stage.Send?
    case FlushAck =>
      && s.sender.At? && s.sender.todo != [] && s.sender.stage.Wait?
      && TxnKey(s.sender.stage.attempt.room, s.sender.stage.attempt.txn) in s.server.dedup
    case FlushTransient => s.sender.At? && s.sender.stage.Wait?
    case FlushReject => s.sender.At? && s.sender.todo != [] && s.sender.stage.Wait?
    case FlushResolve => s.sender.At? && s.sender.todo != [] && s.sender.stage.Got?
    case FlushFail => SenderAt(s, Bad)
    case FlushCancel => s.sender.At? && s.sender.stage.Wait?
    case ServerTake(attempt, id, _, _) => attempt in s.net && id !in s.server.events && !IsLocal(id)
    case ServerPublish(ev) => ev.eventId !in s.server.events && !IsLocal(ev.eventId) && Agrees(NewRow(ev))
    case Backfill(batch) => FromServer(s.server, batch)
    case LoopBegin(p) => p !in s.loops
    case LoopReply(p, resp) => p in s.loops && s.loops[p].Polling? && FromServer(s.server, Batch(resp.rooms))
    case LoopFold(p) => p in s.loops && s.loops[p].Folding?
    case LoopCheck(p) => JoiningAt(s, p, false)
    case LoopAskError(p) => JoiningAt(s, p, false) && AsksFirst(ToDeviceOf(s.loops[p].resp)[s.loops[p].i])
    case LoopJoin(p, _, _) => JoiningAt(s, p, true)
    case LoopSave(p) => p in s.loops && s.loops[p].Joining? && s.loops[p].i == |ToDeviceOf(s.loops[p].resp)|
    case LoopCancel(p) => p in s.loops && s.loops[p].Polling?
    case PassBegin(p) => p !in s.passes
    case PassStep(p, _) => p in s.passes && s.passes[p].todo != []
    case PassError(p) => p in s.passes && s.passes[p].stage == Check
    case CreateRoomGroup(room, _) => !HasGroup(s.engine, room)
    case Invite(room, _, _, _) => HasGroup(s.engine, room)
    case Crash => true
  }

  // --- The sending side ------------------------------------------------------------

  /** On to the next send, or the end of the pass. */
  function NextSend(todo: seq<Queued>): Sender
  {
    if |todo| <= 1 then Off else At(todo[1..], Choose)
  }

  function DoQueue(s: Sys, txn: string, echo: string, room: string, body: string, ts: int): Sys
  {
    s.(db := QueueSend(s.db, txn, echo, room, s.user, body, ts),
       ledger := s.ledger.(queued := s.ledger.queued[txn := Pending(room, body, echo, ts)],
         owner := s.ledger.owner[echo := txn]))
  }

  function DoFlushBegin(s: Sys): Sys
  {
    var todo := PendingSends(s.db);
    s.(sender := if todo == [] then Off else At(todo, Choose))
  }

  function DoFlushSeal(s: Sys, io: Io): Sys
    requires SenderAt(s, Seal)
  {
    var q := s.sender.todo[0];
    var (e', c) := Encrypt(s.engine, q.room, q.body, io);
    s.(engine := e',
       sender := s.sender.(stage := if c.Some? then Send(Attempt(q.txn, q.room, Encrypted, SealedContent(c.value)))
         else Bad))
  }

  function DoFlushMark(s: Sys): Sys
    requires SenderAt(s, Mark)
  {
    var q := s.sender.todo[0];
    s.(sender := if IsRoomEncrypted(s.db, q.room) then NextSend(s.sender.todo)
                 else s.sender.(stage := Send(Attempt(q.txn, q.room, Message, TextContent(q.body)))))
  }

  function DoFlushResolve(s: Sys): Sys
    requires s.sender.At? && s.sender.todo != [] && s.sender.stage.Got?
  {
    var txn, id := s.sender.todo[0].txn, s.sender.stage.id;
    s.(db := ResolveSend(s.db, txn, id), sender := NextSend(s.sender.todo),
       ledger := s.ledger.(resolved := s.ledger.resolved[txn := id]))
  }

  function DoFlushFail(s: Sys): Sys
    requires SenderAt(s, Bad)
  {
    var txn := s.sender.todo[0].txn;
    s.(db := FailSend(s.db, txn), sender := NextSend(s.sender.todo),
       ledger := s.ledger.(failed := s.ledger.failed + {txn}))
  }

  function EventFor(user: string, a: Attempt, id: string, ts: int, depth: int): Event
  {
    Event(id, a.room, user, a.ty, None, ts, depth, ToWire(id, a.room, user, a.ty, ts, depth, a.content))
  }

  /** A transmitted request may be processed late, and more than once. */
  function DoServerTake(s: Sys, a: Attempt, id: string, ts: int, depth: int): Sys
  {
    var key := TxnKey(a.room, a.txn);
    if key in s.server.dedup then s
    else
      s.(server := Server(s.server.events[id := EventFor(s.user, a, id, ts, depth)], s.server.dedup[key := id]),
         origin := s.origin[id := key])
  }

  // --- The sync loop ----------------------------------------------------------------

  function DoLoopFold(s: Sys, p: nat): Sys
    requires p in s.loops && s.loops[p].Folding?
  {
    var l := s.loops[p];
    var (db', r) := ApplyEvents(s.db, Batch(l.resp.rooms));
    s.(db := db', loops := if r.Ok? then s.loops[p := Joining(l.path, l.resp, 0, false)] else s.loops - {p})
  }

  /** Skips what is no Welcome and Welcomes that name a held group. */
  function DoLoopCheck(s: Sys, p: nat): Sys
    requires JoiningAt(s, p, false)
  {
    var l := s.loops[p];
    var ev := ToDeviceOf(l.resp)[l.i];
    var skip := !ev.isWelcome || ev.welcome.None? || (ev.room.Some? && HasGroup(s.engine, ev.room.value));
    s.(loops := s.loops[p := if skip then l.(i := l.i + 1) else l.(checked := true)])
  }

  /** The group could not be loaded: the Welcome is logged and skipped. */
  function DoLoopAskError(s: Sys, p: nat): Sys
    requires JoiningAt(s, p, false)
  {
    var l := s.loops[p];
    s.(loops := s.loops[p := l.(i := l.i + 1)], unasked := s.unasked + {ToDeviceOf(l.resp)[l.i]})
  }

  function DoLoopJoin(s: Sys, p: nat, accept: bool, put: bool): Sys
    requires JoiningAt(s, p, true)
  {
    var l := s.loops[p];
    var ev := ToDeviceOf(l.resp)[l.i];
    var s' := s.(loops := s.loops[p := l.(i := l.i + 1, checked := false)]);
    if ev.welcome.None? then s'
    else
      var (e', ok) := JoinFromWelcome(s.engine, ev.welcome.value, accept, put);
      s'.(engine := e',
          refused := if ok then s.refused else s.refused + {ev})
  }

  function DoLoopSave(s: Sys, p: nat): Sys
    requires p in s.loops && s.loops[p].Joining?
  {
    var l := s.loops[p];
    var s' := s.(db := SaveToken(s.db, l.resp), loops := s.loops - {p});
    if l.resp.next.Some? then s'.(path := l.path + [l.resp]) else s'
  }

  // --- The inbound pass -----------------------------------------------------------------

  function NextItem(s: Sys, p: nat): Sys
    requires p in s.passes && s.passes[p].todo != []
  {
    var todo := s.passes[p].todo[1..];
    s.(passes := if todo == [] then s.passes - {p} else s.passes[p := Pass(todo, Check)])
  }

  function AtStage(s: Sys, p: nat, stage: PassStage): Sys
    requires p in s.passes
  {
    s.(passes := s.passes[p := s.passes[p].(stage := stage)])
  }

  function DoWork(s: Sys, p: nat, io: Io): Sys
    requires p in s.passes && s.passes[p].todo != []
  {
    match s.passes[p].todo[0]
    case MessageItem(id, room, sender, cipher) =>
      var (e', text) := Decrypt(s.engine, room, cipher, io);
      AtStage(s, p, Write(text)).(engine := e',
         unsealed := if text.Some? then s.unsealed + {id} else s.unsealed,
         missed := s.missed + MissedBy(s.engine, s.passes[p].todo[0], io))
    case CommitItem(id, room, sender, commit) =>
      AtStage(s, p, Write(None)).(
         engine := if sender != s.user then ProcessCommit(s.engine, room, commit, io).0 else s.engine)
  }

  function DoWrite(s: Sys, p: nat): Sys
    requires p in s.passes && s.passes[p].todo != [] && s.passes[p].stage.Write?
  {
    var item, text := s.passes[p].todo[0], s.passes[p].stage.text;
    var db' := if item.CommitItem? then SetState(s.db, item.id, Done)
               else if text.Some? then SetDecrypted(s.db, item.id, text.value)
               else SetState(s.db, item.id, GaveUp);
    NextItem(s, p).(db := db')
  }

  function DoPassStep(s: Sys, p: nat, io: Io): Sys
    requires p in s.passes && s.passes[p].todo != []
  {
    var item := s.passes[p].todo[0];
    match s.passes[p].stage
    case Check =>
      if !HasGroup(s.engine, item.room) then NextItem(s, p)
      else AtStage(s, p, if item.MessageItem? && item.sender == s.user then Own else Work)
    case Own => if HasPendingSend(s.db, item.room) then NextItem(s, p) else AtStage(s, p, Work)
    case Work => DoWork(s, p, io)
    case Write(_) => DoWrite(s, p)
  }

  /** The plaintexts passes hold but have not recorded. */
  function InHand(passes: map<nat, Pass>): set<string>
  {
    set p | p in passes && passes[p].todo != [] && passes[p].stage.Write? && passes[p].stage.text.Some? ::
      passes[p].todo[0].id
  }

  /** Memory is gone; the store, the keystore, the server and what is already on
      the wire remain. */
  function DoCrash(s: Sys): Sys
  {
    s.(engine := Restart(s.engine), sender := Off, passes := map[], loops := map[],
       lost := s.lost + InHand(s.passes), lossy := s.lossy || s.engine.device != s.engine.saved)
  }

  function DoSend(s: Sys, stage: SendStage): Sys
    requires s.sender.At?
  {
    s.(sender := s.sender.(stage := stage))
  }

  function DoFlushTransmit(s: Sys): Sys
    requires s.sender.At? && s.sender.stage.Send?
  {
    DoSend(s, Wait(s.sender.stage.attempt)).(net := s.net + {s.sender.stage.attempt})
  }

  function DoServerPublish(s: Sys, ev: Event): Sys
  {
    s.(server := s.server.(events := s.server.events[ev.eventId := ev]))
  }

  function DoPassBegin(s: Sys, p: nat): Sys
  {
    var todo := PendingMls(s.db);
    if todo == [] then s else s.(passes := s.passes[p := Pass(todo, Check)])
  }

  function DoEngine(s: Sys, e: Engine): Sys
  {
    s.(engine := e)
  }

  function Do(s: Sys, a: Action): Sys
    requires Enabled(s, a)
  {
    match a
    case Queue(txn, echo, room, body, ts) => DoQueue(s, txn, echo, room, body, ts)
    case FlushBegin => DoFlushBegin(s)
    case FlushChoose => DoSend(s, if HasGroup(s.engine, s.sender.todo[0].room) then Seal else Mark)
    case FlushSeal(io) => DoFlushSeal(s, io)
    case FlushEngineError => DoSend(s, Bad)
    case FlushMark => DoFlushMark(s)
    case FlushTransmit => DoFlushTransmit(s)
    case FlushAck => DoSend(s, Got(s.server.dedup[TxnKey(s.sender.stage.attempt.room, s.sender.stage.attempt.txn)]))
    case FlushTransient => s.(sender := Off)
    case FlushReject => DoSend(s, Bad)
    case FlushResolve => DoFlushResolve(s)
    case FlushFail => DoFlushFail(s)
    case FlushCancel => s.(sender := Off)
    case ServerTake(attempt, id, ts, depth) => DoServerTake(s, attempt, id, ts, depth)
    case ServerPublish(ev) => DoServerPublish(s, ev)
    case Backfill(batch) => s.(db := ApplyEvents(s.db, batch).0)
    case LoopBegin(p) => s.(loops := s.loops[p := Polling(s.path)])
    case LoopReply(p, resp) => s.(loops := s.loops[p := Folding(s.loops[p].path, resp)])
    case LoopFold(p) => DoLoopFold(s, p)
    case LoopCheck(p) => DoLoopCheck(s, p)
    case LoopAskError(p) => DoLoopAskError(s, p)
    case LoopJoin(p, accept, put) => DoLoopJoin(s, p, accept, put)
    case LoopSave(p) => DoLoopSave(s, p)
    case LoopCancel(p) => s.(loops := s.loops - {p})
    case PassBegin(p) => DoPassBegin(s, p)
    case PassStep(p, io) => DoPassStep(s, p, io)
    case PassError(p) => s.(passes := s.passes - {p})
    case CreateRoomGroup(room, put) => DoEngine(s, CreateGroup(s.engine, room, put).0)
    case Invite(room, invitee, accept, put) => DoEngine(s, AddMember(s.engine, room, invitee, accept, put).0)
    case Crash => DoCrash(s)
  }

  // --- What an activity may change -----------------------------------------------

  /** Only what a sync loop's own steps may change changed. */
  ghost predicate OnlyLoop(s: Sys, s': Sys)
  {
    s' == s.(db := s'.db, engine := s'.engine, loops := s'.loops, path := s'.path,
             refused := s'.refused, unasked := s'.unasked)
  }

  /** Only what an inbound pass may change changed. */
  ghost predicate OnlyInbound(s: Sys, s': Sys)
  {
    s' == s.(db := s'.db, engine := s'.engine, passes := s'.passes, unsealed := s'.unsealed,
             missed := s'.missed)
  }

  // --- Runs --------------------------------------------------------------------------

  /** States and the actions between them. */
  ghost predicate IsRun(states: seq<Sys>, actions: seq<Action>)
  {
    && |states| == |actions| + 1
    && forall i | 0 <= i < |actions| :: Enabled(states[i], actions[i]) && states[i + 1] == Do(states[i], actions[i])
  }

  ghost predicate RunFrom(user: string, states: seq<Sys>, actions: seq<Action>)
  {
    IsRun(states, actions) && states[0] == Init(user)
  }
}
