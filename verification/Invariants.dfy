/** What every reachable state of the machine satisfies. */
module Invariants {
  import opened Base
  import opened Mls
  import opened Events
  import opened T = Tables
  import opened CurrentState
  import opened Inbound
  import opened Flush
  import opened Sync
  import opened Machine

  // --- What a queued message may become ------------------------------------------------

  /** The typed text as a plain message, or sealed by this user. */
  predicate Faithful(user: string, ty: EventType, c: Content, body: string)
  {
    || (ty == Message && IsText(c, body))
    || (ty == Encrypted && c.ciphertext.Some? && c.ciphertext.value.Genuine?
        && c.ciphertext.value.sealed.sender == user && c.ciphertext.value.sealed.text == Some(body)
        && IsSealed(c, c.ciphertext.value.sealed))
  }

  predicate IsEcho(r: Row, p: Pending, local: SendState)
  {
    && r.local == local && r.ev.ty == Message && r.ev.stateKey.None? && r.decrypted.None?
    && r.ev.roomId == p.room && IsText(r.ev.payload.content, p.body)
  }

  /** A row that shows the typed text once acknowledged. */
  predicate ShowsTyped(r: Row, body: string)
  {
    && r.local == Confirmed
    && (if r.ev.ty == Message then IsText(r.ev.payload.content, body)
        else r.ev.ty == Encrypted && r.decrypted == Some(body))
  }

  // --- The queue and its echoes ----------------------------------------------------------

  /** Every message ever queued is in exactly one of three places. */
  ghost predicate Conserved(db: Db, led: Ledger)
  {
    && led.queued.Keys == db.pending.Keys + led.resolved.Keys + led.failed
    && db.pending.Keys !! led.resolved.Keys
    && db.pending.Keys !! led.failed
    && led.resolved.Keys !! led.failed
    && (forall t | t in db.pending :: db.pending[t] == led.queued[t])
  }

  ghost predicate OwnersAgree(led: Ledger)
  {
    && (forall t | t in led.queued :: led.queued[t].echo in led.owner && led.owner[led.queued[t].echo] == t)
    && (forall e | e in led.owner :: IsLocal(e) && led.owner[e] in led.queued && led.queued[led.owner[e]].echo == e)
  }

  ghost predicate EchoOf(db: Db, led: Ledger, t: string, local: SendState)
  {
    t in led.queued && led.queued[t].echo in db.events && IsEcho(db.events[led.queued[t].echo], led.queued[t], local)
  }

  ghost predicate OwnedOrConfirmed(db: Db, led: Ledger, id: string)
  {
    id in db.events ==>
      if IsLocal(id) then id in led.owner && (led.owner[id] in db.pending || led.owner[id] in led.failed)
      else db.events[id].local == Confirmed
  }

  /** The provisional rows are exactly the echoes of pending and failed sends. */
  ghost predicate EchoesMatch(db: Db, led: Ledger)
  {
    && (forall t | t in db.pending :: EchoOf(db, led, t, Sending))
    && (forall t | t in led.failed :: EchoOf(db, led, t, Failed))
    && (forall id | id in db.events :: OwnedOrConfirmed(db, led, id))
  }

  ghost predicate QueueInv(db: Db, led: Ledger)
  {
    Conserved(db, led) && OwnersAgree(led) && EchoesMatch(db, led)
  }

  // --- The server and what is on its way to it ---------------------------------------------

  ghost predicate FaithfulAttempt(user: string, queued: map<string, Pending>, a: Attempt)
  {
    a.txn in queued && queued[a.txn].room == a.room && Faithful(user, a.ty, a.content, queued[a.txn].body)
  }

  /** Event `ev` is what the send under `key` became. */
  ghost predicate FaithfulEvent(user: string, queued: map<string, Pending>, key: TxnKey, ev: Event)
  {
    && key.txn in queued && queued[key.txn].room == key.room
    && ev.stateKey.None? && ev.roomId == key.room && ev.sender == user
    && Faithful(user, ev.ty, ev.payload.content, queued[key.txn].body)
  }

  /** The dedup table and the origins of events are inverse to each other. */
  ghost predicate DedupInv(server: Server, origin: map<string, TxnKey>)
  {
    && (forall k | k in server.dedup :: server.dedup[k] in origin && origin[server.dedup[k]] == k)
    && (forall id | id in origin :: id in server.events && origin[id] in server.dedup && server.dedup[origin[id]] == id)
  }

  ghost predicate NoLocalIds(server: Server)
  {
    forall id | id in server.events :: !IsLocal(id)
  }

  ghost predicate OriginsFaithful(user: string, server: Server, queued: map<string, Pending>, origin: map<string,
      TxnKey>)
  {
    forall id | id in origin :: id in server.events && FaithfulEvent(user, queued, origin[id], server.events[id])
  }

  ghost predicate NetFaithful(user: string, net: set<Attempt>, queued: map<string, Pending>)
  {
    forall a | a in net :: FaithfulAttempt(user, queued, a)
  }

  ghost predicate ServerInv(user: string, server: Server, net: set<Attempt>, queued: map<string, Pending>,
      origin: map<string, TxnKey>)
  {
    && WellFormed(server.events) && NoLocalIds(server)
    && DedupInv(server, origin) && OriginsFaithful(user, server, queued, origin)
    && NetFaithful(user, net, queued)
  }

  ghost predicate StageInv(user: string, server: Server, q: Queued, stage: SendStage)
  {
    match stage
    case Send(a) => a.txn == q.txn && a.room == q.room && Faithful(user, a.ty, a.content, q.body)
    case Wait(a) => a.txn == q.txn && a.room == q.room && Faithful(user, a.ty, a.content, q.body)
    case Got(id) => TxnKey(q.room, q.txn) in server.dedup && server.dedup[TxnKey(q.room, q.txn)] == id
    case _ => true
  }

  ghost predicate SenderInv(user: string, db: Db, server: Server, sender: Sender)
  {
    sender.At? ==>
      sender.todo != [] && AllQueued(db, sender.todo) && StageInv(user, server, sender.todo[0], sender.stage)
  }

  // --- The log --------------------------------------------------------------------------------

  /** A confirmed row is the server's event, or one of our echoes promoted to it. */
  ghost predicate RowsFromServer(db: Db, server: Server, origin: map<string, TxnKey>, resolved: map<string, string>)
  {
    forall id | id in db.events && !IsLocal(id) ::
      && id in server.events
      && (db.events[id].ev == server.events[id]
          || (id in origin && origin[id].txn in resolved && db.events[id].ev.ty == Message
               && db.events[id].ev.stateKey.None?))
  }

  ghost predicate LogInv(db: Db, server: Server, origin: map<string, TxnKey>, resolved: map<string, string>)
  {
    StoreInv(db, server.events) && RowsFromServer(db, server, origin, resolved)
  }

  /** Every resolved send shows what was typed, under the server's id. */
  ghost predicate ResolvedShown(db: Db, server: Server, queued: map<string, Pending>, resolved: map<string, string>)
  {
    forall t | t in resolved ::
      && t in queued
      && TxnKey(queued[t].room, t) in server.dedup
      && server.dedup[TxnKey(queued[t].room, t)] == resolved[t]
      && resolved[t] in db.events
      && ShowsTyped(db.events[resolved[t]], queued[t].body)
  }

  // --- The plaintext cache ---------------------------------------------------------------------

  /** A cached plaintext is what its row's ciphertext seals. */
  ghost predicate CacheTrue(db: Db)
  {
    forall id | id in db.events && db.events[id].decrypted.Some? :: SealsText(db.events[id].ev, db.events[id].decrypted)
  }

  predicate SealsText(ev: Event, text: Option<string>)
  {
    && ev.ty == Encrypted
    && ev.payload.content.ciphertext.Some? && ev.payload.content.ciphertext.value.Genuine?
    && ev.payload.content.ciphertext.value.sealed.text == text
  }

  /** An item of a pass's snapshot still stands for its row. */
  ghost predicate ItemStands(db: Db, item: MlsItem)
  {
    && !IsLocal(item.id) && item.id in db.events
    && ItemOf(db.events[item.id]) == Some(item)
  }

  ghost predicate WriteTrue(user: string, item: MlsItem, text: Option<string>)
  {
    text.Some? ==>
      item.MessageItem? && item.cipher.Genuine? && item.cipher.sealed.text == text && item.cipher.sealed.sender != user
  }

  ghost predicate PassStands(db: Db, user: string, p: Pass)
  {
    && p.todo != []
    && (forall i | 0 <= i < |p.todo| :: ItemStands(db, p.todo[i]))
    && (p.stage.Write? ==> WriteTrue(user, p.todo[0], p.stage.text))
  }

  ghost predicate PassesStand(db: Db, user: string, passes: map<nat, Pass>)
  {
    forall p | p in passes :: PassStands(db, user, passes[p])
  }

  ghost predicate UserInv(user: string, e: Engine)
  {
    e.device.user == user && e.saved.user == user
  }

  /** A ciphertext the engine opened is cached, in the hands of a pass, or was in
      the hands of a pass when the process died. */
  ghost predicate OpenedKept(db: Db, passes: map<nat, Pass>, unsealed: set<string>, lost: set<string>)
  {
    forall id | id in unsealed ::
      (id in db.events && db.events[id].decrypted.Some? && !IsLocal(id)) || id in InHand(passes) || id in lost
  }

  // --- The token -----------------------------------------------------------------------------------

  ghost predicate EventsLogged(db: Db, resp: Response)
  {
    && ParseAll(Batch(resp.rooms)).Ok?
    && forall i | 0 <= i < |ParseAll(Batch(resp.rooms)).value| ::
         !IsLocal(ParseAll(Batch(resp.rooms)).value[i].eventId)
           && ParseAll(Batch(resp.rooms)).value[i].eventId in db.events
  }

  /** A Welcome is done with when a group it names or carries is held, or it was
      refused by the engine or skipped because the engine could not be asked. */
  ghost predicate WelcomeDone(device: Device, waived: set<ToDevice>, ev: ToDevice)
  {
    ev.isWelcome && ev.welcome.Some? ==>
      || (ev.room.Some? && ev.room.value in device.groups)
      || (ev.welcome.value.Invitation? && ev.welcome.value.room in device.groups)
      || ev in waived
  }

  ghost predicate WelcomesDone(device: Device, waived: set<ToDevice>, resp: Response, n: nat)
  {
    n <= |ToDeviceOf(resp)| && forall i | 0 <= i < n :: WelcomeDone(device, waived, ToDeviceOf(resp)[i])
  }

  ghost predicate PathDone(device: Device, waived: set<ToDevice>, path: seq<Response>)
  {
    forall i | 0 <= i < |path| :: WelcomesDone(device, waived, path[i], |ToDeviceOf(path[i])|)
  }

  ghost predicate LoopDone(device: Device, waived: set<ToDevice>, l: Loop)
  {
    PathDone(device, waived, l.path) && (l.Joining? ==> WelcomesDone(device, waived, l.resp, l.i))
  }

  ghost predicate LoopsDone(device: Device, waived: set<ToDevice>, loops: map<nat, Loop>)
  {
    forall p | p in loops :: LoopDone(device, waived, loops[p])
  }

  ghost predicate PathLogged(db: Db, path: seq<Response>)
  {
    forall i | 0 <= i < |path| :: EventsLogged(db, path[i])
  }

  ghost predicate LoopLogged(db: Db, l: Loop)
  {
    PathLogged(db, l.path) && (l.Joining? ==> EventsLogged(db, l.resp))
  }

  ghost predicate LoopsLogged(db: Db, loops: map<nat, Loop>)
  {
    forall p | p in loops :: LoopLogged(db, loops[p])
  }

  /** Every event acknowledged so far is in the log. */
  ghost predicate AllLogged(db: Db, path: seq<Response>, loops: map<nat, Loop>)
  {
    PathLogged(db, path) && LoopsLogged(db, loops)
  }

  ghost predicate TokenFromPath(token: Option<string>, path: seq<Response>)
  {
    if path == [] then token == None else token == path[|path| - 1].next
  }

  /** What a crash could break: until one finds memory ahead of the keystore, every
      acknowledged Welcome is done with. */
  ghost predicate AllAcked(e: Engine, waived: set<ToDevice>, path: seq<Response>, loops: map<nat, Loop>)
  {
    PathDone(e.device, waived, path) && LoopsDone(e.device, waived, loops)
  }

  function Waived(s: Sys): set<ToDevice>
  {
    s.refused + s.unasked
  }

  ghost predicate RepliesGenuine(server: Server, loops: map<nat, Loop>)
  {
    forall p | p in loops && loops[p].Folding? :: FromServer(server, Batch(loops[p].resp.rooms))
  }

  ghost predicate Inv(s: Sys)
  {
    && QueueInv(s.db, s.ledger)
    && ServerInv(s.user, s.server, s.net, s.ledger.queued, s.origin)
    && SenderInv(s.user, s.db, s.server, s.sender)
    && LogInv(s.db, s.server, s.origin, s.ledger.resolved)
    && ResolvedShown(s.db, s.server, s.ledger.queued, s.ledger.resolved)
    && CacheTrue(s.db)
    && PassesStand(s.db, s.user, s.passes)
    && UserInv(s.user, s.engine)
    && OpenedKept(s.db, s.passes, s.unsealed, s.lost)
    && TokenFromPath(s.db.token, s.path)
    && RepliesGenuine(s.server, s.loops)
    && AllLogged(s.db, s.path, s.loops)
    && (!s.lossy ==> AllAcked(s.engine, Waived(s), s.path, s.loops))
  }

  lemma InitInv(user: string)
    ensures Inv(Init(user))
  {
  }

  // --- How a step may change the store ----------------------------------------------------------------

  /** Server rows are never dropped, never change their event, and never lose or
      change a cached plaintext. */
  ghost predicate RowsPersist(db: Db, db': Db)
  {
    forall id | id in db.events && !IsLocal(id) ::
      && id in db'.events && db'.events[id].ev == db.events[id].ev
      && (db.events[id].decrypted.Some? ==> db'.events[id].decrypted == db.events[id].decrypted)
  }

  lemma {:induction false} ParsedFromServer(server: Server, ws: seq<Wire>)
    requires FromServer(server, ws) && WellFormed(server.events)
    ensures ParseAll(ws).Ok? ==>
              && Drawn(server.events, ParseAll(ws).value)
              && forall i | 0 <= i < |ParseAll(ws).value| :: ParseAll(ws).value[i].eventId in server.events
  {
    if ws != [] {
      assert FromWire(ws[0]).Ok? ==> FromWire(ws[0]).value.eventId in server.events;
      assert forall i | 0 <= i < |ws[1..]| :: ws[1..][i] == ws[i + 1];
      ParsedFromServer(server, ws[1..]);
    }
  }

  /** What a batch of server events does, row by row. */
  ghost predicate BatchEffect(server: Server, db: Db, db': Db)
  {
    && db'.pending == db.pending && db'.token == db.token
    && (forall id | id in db.events :: id in db'.events && db'.events[id] == db.events[id])
    && (forall id | id in db'.events && id !in db.events :: id in server.events
         && db'.events[id] == NewRow(server.events[id]))
  }

  lemma BatchApplies(db: Db, server: Server, ws: seq<Wire>)
    requires StoreInv(db, server.events) && FromServer(server, ws)
    ensures BatchEffect(server, db, ApplyEvents(db, ws).0)
    ensures StoreInv(ApplyEvents(db, ws).0, server.events)
  {
    ParsedFromServer(server, ws);
    if ParseAll(ws).Ok? {
      var evs := ParseAll(ws).value;
      LogAfter(db, server.events, evs);
      ApplyAllKeeps(db, server.events, evs);
      forall id | id in ApplyAll(db, evs).events && id !in db.events ensures id in server.events {
        assert Mentions(evs, id);
      }
    }
  }
}
