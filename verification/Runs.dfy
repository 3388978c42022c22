/** What holds of every run of the machine, whatever the interleaving. */
module Runs {
  import opened Base
  import opened Order
  import opened Mls
  import opened Events
  import opened R = Render
  import opened T = Tables
  import opened CurrentState
  import opened Inbound
  import opened Flush
  import opened Sync
  import opened Machine
  import opened Effects
  import opened Invariants
  import opened Steps
  import opened Frames
  import opened Authors

  // --- Every reachable state -----------------------------------------------------

  lemma {:induction false} RunKeeps(user: string, states: seq<Sys>, actions: seq<Action>, i: nat)
    requires RunFrom(user, states, actions) && i < |states|
    ensures Inv(states[i])
  {
    hide Inv, Do, Enabled;
    if i == 0 {
      InitInv(user);
    } else {
      RunKeeps(user, states, actions, i - 1);
      StepKeeps(states[i - 1], actions[i - 1]);
    }
  }

  /** The log and the room state agree in every reachable state: columns are what
      the payloads parse to, and every slot holds a deepest logged event. */
  lemma ReachableStore(user: string, states: seq<Sys>, actions: seq<Action>, i: nat)
    requires RunFrom(user, states, actions) && i < |states|
    ensures StateIsArgmax(states[i].db)
    ensures forall id | id in states[i].db.events ::
             ReadRow(states[i].db.events[id]) == Ok(ReadBack(states[i].db.events[id]))
    ensures StoreInv(states[i].db, states[i].server.events)
  {
    RunKeeps(user, states, actions, i);
    Readable(states[i].db);
  }

  lemma Readable(db: Db)
    requires RowsAgree(db)
    ensures forall id | id in db.events :: ReadRow(db.events[id]) == Ok(ReadBack(db.events[id]))
  {
    forall id | id in db.events ensures ReadRow(db.events[id]) == Ok(ReadBack(db.events[id])) {
      RowReadsBack(db, id);
    }
  }

  // --- What no step undoes -----------------------------------------------------------

  ghost predicate Deepens(db: Db, db': Db)
  {
    forall k | k in db.roomState :: k in db'.roomState && db.roomState[k].depth <= db'.roomState[k].depth
  }

  ghost predicate LedgerGrows(led: Ledger, led': Ledger)
  {
    && (forall t | t in led.queued :: t in led'.queued && led'.queued[t] == led.queued[t])
    && (forall t | t in led.resolved :: t in led'.resolved && led'.resolved[t] == led.resolved[t])
    && led.failed <= led'.failed
  }

  ghost predicate StoreGrows(db: Db, db': Db)
  {
    RowsPersist(db, db') && Deepens(db, db')
  }

  lemma BatchGrows(s: Sys, ws: seq<Wire>)
    requires Inv(s) && FromServer(s.server, ws)
    ensures StoreGrows(s.db, ApplyEvents(s.db, ws).0)
  {
    hide Conserved, OwnersAgree, EchoesMatch, ServerInv, AllQueued, StageInv, RowsFromServer;
    hide ResolvedShown, CacheTrue, PassesStand, OpenedKept, PathDone, LoopsDone, PathLogged, LoopsLogged,
        RepliesGenuine;
    BatchKeeps(s, ws);
    ParsedFromServer(s.server, ws);
    if ParseAll(ws).Ok? {
      ApplyAllKeeps(s.db, s.server.events, ParseAll(ws).value);
    }
  }

  lemma QueueGrows(s: Sys, txn: string, echo: string, room: string, body: string, ts: int)
    requires FreshSend(s.ledger, txn, echo)
    ensures StoreGrows(s.db, DoQueue(s, txn, echo, room, body, ts).db)
    ensures LedgerGrows(s.ledger, DoQueue(s, txn, echo, room, body, ts).ledger)
  {
  }

  lemma ResolveGrows(s: Sys)
    requires Inv(s) && s.sender.At? && s.sender.stage.Got?
    ensures s.sender.todo != []
    ensures StoreGrows(s.db, DoFlushResolve(s).db) && LedgerGrows(s.ledger, DoFlushResolve(s).ledger)
  {
    hide Conserved, OwnersAgree, EchoesMatch, WellFormed, NoLocalIds, DedupInv, OriginsFaithful, NetFaithful,
        AllQueued, StoreInv;
    hide RowsFromServer, AckFacts, SettledRows, ResolvedShown, CacheTrue, PassesStand, OpenedKept, PathDone,
        LoopsDone, PathLogged, LoopsLogged, RepliesGenuine;
    var q, id := s.sender.todo[0], s.sender.stage.id;
    SentIsPending(s);
    AckHasFacts(s.user, s.db, s.server, s.net, s.ledger, s.origin, q, id);
    ResolveRows(s.user, s.db, s.server, s.ledger, s.origin, q.txn, id);
    ResolveEffect(s.db, q.txn, id);
    SettlingGrows(s.ledger, q.txn, id);
  }

  lemma SettlingGrows(led: Ledger, txn: string, id: string)
    requires txn !in led.resolved
    ensures LedgerGrows(led, WithResolved(led, txn, id))
  {
  }

  lemma FailGrows(s: Sys)
    requires Inv(s) && SenderAt(s, Bad)
    ensures StoreGrows(s.db, DoFlushFail(s).db) && LedgerGrows(s.ledger, DoFlushFail(s).ledger)
  {
    hide Conserved, OwnersAgree, EchoesMatch, WellFormed, NoLocalIds, DedupInv, OriginsFaithful, NetFaithful,
        AllQueued, StoreInv, FailSend;
    hide RowsFromServer, ResolvedShown, CacheTrue, PassesStand, OpenedKept, PathDone, LoopsDone, PathLogged,
        LoopsLogged, RepliesGenuine;
    var txn := s.sender.todo[0].txn;
    SentIsPending(s);
    FailEffect(s.db, s.ledger, txn);
    FailingGrows(s.db, FailSend(s.db, txn), s.ledger, txn);
  }

  lemma FailingGrows(db: Db, db': Db, led: Ledger, txn: string)
    requires EchoFails(db, db', led, txn) && IsLocal(led.queued[txn].echo)
    ensures StoreGrows(db, db') && LedgerGrows(led, WithFailed(led, txn))
  {
  }

  lemma PassGrows(s: Sys, p: nat, io: Io)
    requires Inv(s) && p in s.passes && s.passes[p].todo != []
    ensures StoreGrows(s.db, DoPassStep(s, p, io).db) && DoPassStep(s, p, io).ledger == s.ledger
  {
    hide Inv, HasGroup, HasPendingSend, DoWork, DoWrite;
    match s.passes[p].stage
    case Work => WorkFrame(s, p, io);
    case Write(_) =>
      WriteRows(s, p);
      WriteFrame(s, p);
    case _ =>
  }

  lemma FoldGrows(s: Sys, p: nat)
    requires Inv(s) && p in s.loops && s.loops[p].Folding?
    ensures StoreGrows(s.db, DoLoopFold(s, p).db)
  {
    hide StoreGrows, FromServer, ApplyEvents;
    BatchGrows(s, Batch(s.loops[p].resp.rooms));
  }

  lemma StoreStepGrows(s: Sys, a: Action)
    requires Inv(s) && Enabled(s, a) && TouchesStore(a)
    ensures StoreGrows(s.db, Do(s, a).db) && LedgerGrows(s.ledger, Do(s, a).ledger)
  {
    hide Inv, StoreGrows, FromServer, ApplyEvents, DoPassStep, DoQueue, DoFlushFail, DoFlushResolve;
    match a
    case Queue(txn, echo, room, body, ts) => QueueGrows(s, txn, echo, room, body, ts);
    case FlushResolve => ResolveGrows(s);
    case FlushFail => FailGrows(s);
    case Backfill(batch) => BatchGrows(s, batch);
    case LoopFold(p) => FoldGrows(s, p);
    case PassStep(p, io) => PassGrows(s, p, io);
  }

  /** No step drops or rewrites a server row or a cached plaintext, lowers a state
      slot, or takes back what became of a send. */
  lemma StepGrows(s: Sys, a: Action)
    requires Inv(s) && Enabled(s, a)
    ensures StoreGrows(s.db, Do(s, a).db) && LedgerGrows(s.ledger, Do(s, a).ledger)
  {
    if TouchesStore(a) {
      StoreStepGrows(s, a);
    } else {
      StepFrame(s, a);
    }
  }

  lemma {:induction false} RunGrows(user: string, states: seq<Sys>, actions: seq<Action>, i: nat, j: nat)
    requires RunFrom(user, states, actions) && i <= j < |states|
    ensures StoreGrows(states[i].db, states[j].db) && LedgerGrows(states[i].ledger, states[j].ledger)
    decreases j
  {
    hide Inv, Do, Enabled;
    if i < j {
      RunGrows(user, states, actions, i, j - 1);
      RunKeeps(user, states, actions, j - 1);
      StepGrows(states[j - 1], actions[j - 1]);
    }
  }

  // --- Cached plaintext is permanent ----------------------------------------------------

  /** A cached row looks the same whatever its decryption state, except that an
      image without a caption shows the placeholder line once it is given up. */
  lemma CachedLooksTheSame(json: string -> Option<Content>, a: Row, b: Row)
    requires a.ev == b.ev && a.local == b.local && a.decrypted == b.decrypted && a.decrypted.Some?
    ensures var before, after := Render(json, ReadBack(a)), Render(json, ReadBack(b));
            && after == before.(systemText := after.systemText)
            && (after != before <==>
                  (a.state == GaveUp) != (b.state == GaveUp) && a.ev.ty == Encrypted
                  && IsImageJson(json, a.decrypted.value) && json(a.decrypted.value).value.body.None?)
  {
  }

  /** Once set, a cached plaintext and what it renders as never change, even when
      a losing pass later marks the row as given up; only the placeholder line of
      an image without a caption may appear. */
  lemma CachedPlaintextIsPermanent(
      json: string -> Option<Content>, user: string, states: seq<Sys>, actions: seq<Action>, i: nat, j: nat, id: string)
    requires RunFrom(user, states, actions) && i <= j < |states|
    requires id in states[i].db.events && states[i].db.events[id].decrypted.Some?
    ensures id in states[j].db.events && states[j].db.events[id].decrypted == states[i].db.events[id].decrypted
    ensures var text := states[i].db.events[id].decrypted.value;
            var before, after := Render(json, ReadBack(states[i].db.events[id])),
                Render(json, ReadBack(states[j].db.events[id]));
            && after == before.(systemText := after.systemText)
            && (after != before ==> IsImageJson(json, text) && json(text).value.body.None?)
  {
    RunKeeps(user, states, actions, i);
    RunKeeps(user, states, actions, j);
    CachedRows(states[i]);
    RunGrows(user, states, actions, i, j);
    CachedRows(states[j]);
    CachedLooksTheSame(json, states[i].db.events[id], states[j].db.events[id]);
  }

  lemma CachedRows(s: Sys)
    requires Inv(s)
    ensures forall id | id in s.db.events && s.db.events[id].decrypted.Some? :: !IsLocal(id)
             && s.db.events[id].local == Confirmed
  {
    forall id | id in s.db.events && s.db.events[id].decrypted.Some?
      ensures !IsLocal(id) && s.db.events[id].local == Confirmed
    {
      assert OwnedOrConfirmed(s.db, s.ledger, id);
      if IsLocal(id) {
        EchoHasNoCache(s.db, s.ledger, id);
        assert false;
      }
    }
  }

  lemma EchoHasNoCache(db: Db, led: Ledger, id: string)
    requires QueueInv(db, led) && id in db.events && IsLocal(id)
    ensures db.events[id].decrypted.None?
  {
    assert OwnedOrConfirmed(db, led, id);
    var t := led.owner[id];
    assert EchoOf(db, led, t, Sending) || EchoOf(db, led, t, Failed);
  }

  /** A ciphertext some pass opened is cached with its true plaintext, unless that
      pass still has it in hand or the process died with it in hand. */
  lemma OpenedIsCached(user: string, states: seq<Sys>, actions: seq<Action>, i: nat, id: string)
    requires RunFrom(user, states, actions) && i < |states|
    requires id in states[i].unsealed && id !in states[i].lost && id !in InHand(states[i].passes)
    ensures id in states[i].db.events && states[i].db.events[id].decrypted.Some?
    ensures SealsText(states[i].db.events[id].ev, states[i].db.events[id].decrypted)
  {
    RunKeeps(user, states, actions, i);
  }

  // --- Queue and echoes --------------------------------------------------------------------

  /** Pending sends and Sending rows are in bijection through the provisional id,
      Failed rows are exactly the failed sends, and no message is unaccounted for. */
  lemma QueueAndEchoesConserved(user: string, states: seq<Sys>, actions: seq<Action>, i: nat)
    requires RunFrom(user, states, actions) && i < |states|
    ensures var db, led := states[i].db, states[i].ledger;
            && |led.queued| == |db.pending| + |led.resolved| + |led.failed|
            && (forall t | t in db.pending :: db.pending[t].echo in db.events
                 && db.events[db.pending[t].echo].local == Sending)
            && (forall t, t2 | t in db.pending && t2 in db.pending && db.pending[t].echo == db.pending[t2].echo ::
                 t == t2)
            && (forall id | id in db.events && db.events[id].local == Sending :: exists t ::
                 t in db.pending && db.pending[t].echo == id)
            && (forall t | t in led.failed :: t in led.queued && led.queued[t].echo in db.events
                 && db.events[led.queued[t].echo].local == Failed)
            && (forall id | id in db.events && db.events[id].local == Failed :: exists t ::
                 t in led.failed && led.queued[t].echo == id)
  {
    RunKeeps(user, states, actions, i);
    Accounted(states[i].db, states[i].ledger);
    EchoBijection(states[i].db, states[i].ledger);
  }

  lemma Accounted(db: Db, led: Ledger)
    requires Conserved(db, led)
    ensures |led.queued| == |db.pending| + |led.resolved| + |led.failed|
  {
    assert |led.queued.Keys| == |db.pending.Keys + led.resolved.Keys| + |led.failed|;
    assert |db.pending.Keys + led.resolved.Keys| == |db.pending.Keys| + |led.resolved.Keys|;
  }

  lemma EchoBijection(db: Db, led: Ledger)
    requires QueueInv(db, led)
    ensures forall t | t in db.pending :: db.pending[t].echo in db.events
             && db.events[db.pending[t].echo].local == Sending
    ensures forall t, t2 | t in db.pending && t2 in db.pending && db.pending[t].echo == db.pending[t2].echo :: t == t2
    ensures forall id | id in db.events && db.events[id].local == Sending :: exists t ::
             t in db.pending && db.pending[t].echo == id
    ensures forall t | t in led.failed :: t in led.queued && led.queued[t].echo in db.events
             && db.events[led.queued[t].echo].local == Failed
    ensures forall id | id in db.events && db.events[id].local == Failed :: exists t ::
             t in led.failed && led.queued[t].echo == id
  {
    forall t | t in db.pending ensures EchoOf(db, led, t, Sending) && led.owner[db.pending[t].echo] == t {
    }
    forall t | t in led.failed ensures EchoOf(db, led, t, Failed) {
    }
    forall id | id in db.events && db.events[id].local != Confirmed
      ensures id in led.owner && led.owner[id] in led.queued && led.queued[led.owner[id]].echo == id
      ensures db.events[id].local == Sending ==> led.owner[id] in db.pending
      ensures db.events[id].local == Failed ==> led.owner[id] in led.failed
    {
      assert OwnedOrConfirmed(db, led, id);
    }
  }

  predicate Settles(s: Sys, a: Action, t: string)
  {
    (a.FlushResolve? || a.FlushFail?) && s.sender.At? && s.sender.todo != [] && s.sender.todo[0].txn == t
  }

  /** A message leaves the queue only when the pass settles that very message. */
  lemma OnlySettlingDequeues(s: Sys, a: Action, t: string)
    requires Enabled(s, a) && t in s.db.pending
    ensures t in Do(s, a).db.pending || Settles(s, a, t)
  {
    if TouchesStore(a) {
      StoreStepDequeues(s, a, t);
    } else {
      StepFrame(s, a);
    }
  }

  lemma StoreStepDequeues(s: Sys, a: Action, t: string)
    requires Enabled(s, a) && t in s.db.pending && TouchesStore(a)
    ensures t in Do(s, a).db.pending || Settles(s, a, t)
  {
    hide Do, Enabled;
    if a.PassStep? {
      PassStepIs(s, a.p, a.io);
      PassFrame(s, a.p, a.io);
    } else {
      OwnStepDequeues(s, a, t);
    }
  }

  lemma OwnStepDequeues(s: Sys, a: Action, t: string)
    requires Enabled(s, a) && t in s.db.pending && TouchesStore(a) && !a.PassStep?
    ensures t in Do(s, a).db.pending || Settles(s, a, t)
  {
    hide FromServer, Batch, ApplyEvents, QueueSend, ResolveSend, FailSend;
    match a
    case Backfill(batch) => BatchKeepsQueue(s.db, batch);
    case LoopFold(p) => BatchKeepsQueue(s.db, Batch(s.loops[p].resp.rooms));
    case Queue(txn, echo, room, body, ts) => QueueKeepsQueue(s.db, txn, echo, room, s.user, body, ts);
    case FlushResolve => SettlingDequeues(s.db, s.sender.todo[0].txn, s.sender.stage.id);
    case FlushFail => SettlingDequeues(s.db, s.sender.todo[0].txn, "");
  }

  lemma QueueKeepsQueue(db: Db, txn: string, echo: string, room: string, user: string, body: string, ts: int)
    ensures forall t | t in db.pending :: t in QueueSend(db, txn, echo, room, user, body, ts).pending
  {
    hide NextDepth, EchoRow;
  }

  lemma SettlingDequeues(db: Db, txn: string, id: string)
    ensures forall t | t in db.pending && t != txn :: t in ResolveSend(db, txn, id).pending
    ensures forall t | t in db.pending && t != txn :: t in FailSend(db, txn).pending
  {
  }

  lemma BatchKeepsQueue(db: Db, ws: seq<Wire>)
    ensures ApplyEvents(db, ws).0.pending == db.pending
  {
    if ParseAll(ws).Ok? {
      ApplyKeepsQueue(db, ParseAll(ws).value);
    }
  }

  lemma {:induction false} ApplyKeepsQueue(db: Db, evs: seq<Event>)
    ensures ApplyAll(db, evs).pending == db.pending
  {
    if evs != [] {
      ApplyKeepsQueue(db, evs[..|evs| - 1]);
    }
  }

  /** A message held for an encrypted room without a group stays queued, its echo
      still Sending, while the pass moves on to the other sends. */
  lemma HeldStaysQueued(user: string, states: seq<Sys>, actions: seq<Action>, i: nat)
    requires RunFrom(user, states, actions) && i < |actions| && actions[i] == FlushMark
    requires SenderAt(states[i], Mark) && IsRoomEncrypted(states[i].db, states[i].sender.todo[0].room)
    ensures var txn := states[i].sender.todo[0].txn;
            && states[i + 1].db == states[i].db && txn in states[i + 1].db.pending
            && states[i + 1].db.pending[txn].echo in states[i + 1].db.events
            && states[i + 1].db.events[states[i + 1].db.pending[txn].echo].local == Sending
    ensures states[i + 1].net == states[i].net
    ensures if |states[i].sender.todo| == 1 then states[i + 1].sender.Off?
            else states[i + 1].sender == At(states[i].sender.todo[1..], Choose)
  {
    RunKeeps(user, states, actions, i);
    HoldingMovesOn(states[i]);
    assert Do(states[i], FlushMark) == DoFlushMark(states[i]);
  }

  lemma HoldingMovesOn(s: Sys)
    requires Inv(s) && SenderAt(s, Mark) && IsRoomEncrypted(s.db, s.sender.todo[0].room)
    ensures var txn, s' := s.sender.todo[0].txn, DoFlushMark(s);
            && s' == s.(sender := if |s.sender.todo| == 1 then Off else At(s.sender.todo[1..], Choose))
            && txn in s.db.pending && s.db.pending[txn].echo in s.db.events
            && s.db.events[s.db.pending[txn].echo].local == Sending
  {
    hide OwnersAgree, ServerInv, StageInv, LogInv;
    hide ResolvedShown, CacheTrue, PassesStand, OpenedKept, PathDone, LoopsDone, PathLogged, LoopsLogged,
        RepliesGenuine;
    SentIsPending(s);
    assert EchoOf(s.db, s.ledger, s.sender.todo[0].txn, Sending);
  }

  // --- Exactly once ----------------------------------------------------------------------------

  /** The server holds at most one event for each queued message, carrying its
      text, and exactly one, the acknowledged one, when it was resolved. */
  lemma ExactlyOnce(user: string, states: seq<Sys>, actions: seq<Action>, i: nat)
    requires RunFrom(user, states, actions) && i < |states|
    ensures var s := states[i];
            && (forall a, b | a in s.origin && b in s.origin && s.origin[a].txn == s.origin[b].txn :: a == b)
            && (forall id | id in s.origin :: id in s.server.events
                  && FaithfulEvent(user, s.ledger.queued, s.origin[id], s.server.events[id]))
            && (forall t | t in s.ledger.resolved ::
                  s.ledger.resolved[t] in s.origin && s.origin[s.ledger.resolved[t]].txn == t)
  {
    RunKeeps(user, states, actions, i);
    UserIsFixed(user, states, actions, i);
    OnePerSend(user, states[i].server, states[i].net, states[i].ledger.queued, states[i].origin);
    ResolvedHasOrigin(states[i].db, states[i].server, states[i].origin, states[i].ledger.queued,
      states[i].ledger.resolved);
  }

  lemma OnePerSend(user: string, server: Server, net: set<Attempt>, queued: map<string, Pending>, origin: map<string,
      TxnKey>)
    requires ServerInv(user, server, net, queued, origin)
    ensures forall a, b | a in origin && b in origin && origin[a].txn == origin[b].txn :: a == b
    ensures forall id | id in origin :: id in server.events
             && FaithfulEvent(user, queued, origin[id], server.events[id])
  {
    forall a, b | a in origin && b in origin && origin[a].txn == origin[b].txn ensures a == b {
      assert FaithfulEvent(user, queued, origin[a], server.events[a])
          && FaithfulEvent(user, queued, origin[b], server.events[b]);
      assert origin[a] == origin[b];
    }
  }

  lemma ResolvedHasOrigin(db: Db, server: Server, origin: map<string, TxnKey>, queued: map<string, Pending>,
      resolved: map<string, string>)
    requires ResolvedShown(db, server, queued, resolved) && DedupInv(server, origin)
    ensures forall t | t in resolved :: resolved[t] in origin && origin[resolved[t]].txn == t
  {
    forall t | t in resolved ensures resolved[t] in origin && origin[resolved[t]].txn == t {
      assert TxnKey(queued[t].room, t) in server.dedup;
    }
  }

  lemma {:induction false} UserIsFixed(user: string, states: seq<Sys>, actions: seq<Action>, i: nat)
    requires RunFrom(user, states, actions) && i < |states|
    ensures states[i].user == user
  {
    hide Do, Enabled;
    if i > 0 {
      UserIsFixed(user, states, actions, i - 1);
      StepFrame(states[i - 1], actions[i - 1]);
    }
  }

  /** Nothing resolved or failed is ever put on the wire again. */
  lemma NeverResent(user: string, states: seq<Sys>, actions: seq<Action>, i: nat, j: nat, t: string)
    requires RunFrom(user, states, actions) && i <= j < |actions|
    requires t in states[i].ledger.resolved || t in states[i].ledger.failed
    requires actions[j] == FlushTransmit
    ensures states[j].sender.At? && states[j].sender.stage.Send? && states[j].sender.stage.attempt.txn != t
  {
    hide Do, StoreGrows;
    RunGrows(user, states, actions, i, j);
    RunKeeps(user, states, actions, j);
    assert Enabled(states[j], FlushTransmit);
    hide Enabled;
    SentIsPending(states[j]);
  }

  // --- The ack and the sync converge -----------------------------------------------------------

  /** A parsed JSON object is longer than any string in it. */
  ghost predicate ObjectsAreLonger(json: string -> Option<Content>)
  {
    forall t | json(t).Some? && json(t).value.body.Some? :: json(t).value.body != Some(t)
  }

  /** Whatever the order of acknowledgement, delivery, redelivery and decryption,
      a resolved send ends as one confirmed row under the server's id, with no echo
      and no queue entry, showing what was typed, except that a ciphertext row shows
      a text that is itself image JSON as that image. */
  lemma AckAndSyncConverge(json: string -> Option<Content>, user: string, states: seq<Sys>, actions: seq<Action>,
      i: nat, t: string)
    requires RunFrom(user, states, actions) && i < |states| && t in states[i].ledger.resolved
    requires ObjectsAreLonger(json)
    ensures var s := states[i];
            var id := s.ledger.resolved[t];
            && t in s.ledger.queued && t !in s.db.pending && s.ledger.queued[t].echo !in s.db.events
            && id in s.db.events && id in s.origin && s.origin[id].txn == t
            && (forall e | e in s.db.events && e in s.origin && s.origin[e].txn == t :: e == id)
            && var row, body := s.db.events[id], s.ledger.queued[t].body;
               var shown := Render(json, ReadBack(row));
               && row.ev.eventId == id && row.ev.roomId == s.ledger.queued[t].room && row.ev.sender == user
               && row.ev.stateKey.None?
               && !shown.pending && !shown.failed && (row.ev.ty == Message || row.ev.ty == Encrypted)
               && (shown.body == Some(body) && shown.image == None && shown.systemText == None
                   <==> row.ev.ty == Message || !IsImageJson(json, body))
  {
    RunKeeps(user, states, actions, i);
    ExactlyOnce(user, states, actions, i);
    ResolvedEchoGone(states[i].db, states[i].ledger, t);
    OursInItsRoom(user, states, actions, i, t);
    assert ResolvedShown(states[i].db, states[i].server, states[i].ledger.queued, states[i].ledger.resolved);
    TypedShows(json, states[i].db.events[states[i].ledger.resolved[t]], states[i].ledger.queued[t].body);
  }

  lemma {:induction false} RunAuthored(user: string, states: seq<Sys>, actions: seq<Action>, i: nat)
    requires RunFrom(user, states, actions) && i < |states|
    ensures Authored(states[i])
  {
    hide Inv, Do, Enabled, Authored;
    if i == 0 {
      StartsAuthored(user);
    } else {
      RunAuthored(user, states, actions, i - 1);
      RunKeeps(user, states, actions, i - 1);
      StepAuthored(states[i - 1], actions[i - 1]);
    }
  }

  /** The row a resolved send ends as is ours, in the room it was typed in. */
  lemma OursInItsRoom(user: string, states: seq<Sys>, actions: seq<Action>, i: nat, t: string)
    requires RunFrom(user, states, actions) && i < |states| && t in states[i].ledger.resolved
    ensures var s := states[i];
            var id := s.ledger.resolved[t];
            && t in s.ledger.queued && id in s.db.events && s.db.events[id].ev.eventId == id
            && OfSend(s.db.events[id].ev, user, s.ledger.queued[t])
  {
    hide Do, Enabled, Inv;
    RunAuthored(user, states, actions, i);
    RunKeeps(user, states, actions, i);
    UserIsFixed(user, states, actions, i);
    ResolvedIsServers(states[i], t);
    IdOfRow(states[i], states[i].ledger.resolved[t]);
  }

  lemma IdOfRow(s: Sys, id: string)
    requires Inv(s) && id in s.db.events
    ensures s.db.events[id].ev.eventId == id
  {
  }

  /** While a send is pending or failed, its echo is ours, in its room, with the text
      and the time it was typed, shown as pending or as failed. */
  lemma EchoIsOurs(json: string -> Option<Content>, user: string, states: seq<Sys>, actions: seq<Action>, i: nat,
      t: string)
    requires RunFrom(user, states, actions) && i < |states|
    requires t in states[i].db.pending || t in states[i].ledger.failed
    ensures var s := states[i];
            && t in s.ledger.queued && s.ledger.queued[t].echo in s.db.events
            && var p, row := s.ledger.queued[t], s.db.events[s.ledger.queued[t].echo];
               && OfSend(row.ev, user, p) && row.ev.ts == p.created
               && var shown := Render(json, ReadBack(row));
                  && shown.body == Some(p.body) && shown.systemText.None? && shown.image.None?
                  && shown.sender == user && shown.ts == p.created
                  && (shown.pending <==> t in s.db.pending) && (shown.failed <==> t in s.ledger.failed)
  {
    hide Do, Enabled;
    RunAuthored(user, states, actions, i);
    RunKeeps(user, states, actions, i);
    UserIsFixed(user, states, actions, i);
    EchoFacts(states[i], t);
    EchoShows(json, states[i].db.events[states[i].ledger.queued[t].echo], states[i].ledger.queued[t].body);
  }

  lemma EchoFacts(s: Sys, t: string)
    requires Inv(s) && (t in s.db.pending || t in s.ledger.failed)
    ensures t in s.ledger.queued && s.ledger.queued[t].echo in s.db.events
    ensures var p := s.ledger.queued[t];
            && IsLocal(p.echo) && p.echo in s.ledger.owner && s.ledger.owner[p.echo] == t
            && IsEcho(s.db.events[p.echo], p, if t in s.db.pending then Sending else Failed)
            && !(t in s.db.pending && t in s.ledger.failed)
  {
    hide ServerInv, SenderInv, LogInv, CacheTrue, PassesStand, OpenedKept, AllLogged, AllAcked, RepliesGenuine,
        ResolvedShown;
    if t in s.db.pending {
      assert EchoOf(s.db, s.ledger, t, Sending);
    } else {
      assert EchoOf(s.db, s.ledger, t, Failed);
    }
  }

  lemma EchoShows(json: string -> Option<Content>, row: Row, body: string)
    requires row.ev.ty == Message && IsText(row.ev.payload.content, body)
    ensures var shown := Render(json, ReadBack(row));
            && shown.body == Some(body) && shown.systemText.None? && shown.image.None?
            && shown.sender == row.ev.sender && shown.ts == row.ev.ts
            && (shown.pending <==> row.local == Sending) && (shown.failed <==> row.local == Failed)
  {
    TextShows(json, ReadBack(row), body);
    SendStateShows(json, ReadBack(row));
  }

  lemma ResolvedEchoGone(db: Db, led: Ledger, t: string)
    requires QueueInv(db, led) && t in led.resolved
    ensures t in led.queued && t !in db.pending && led.queued[t].echo !in db.events
  {
    var echo := led.queued[t].echo;
    assert IsLocal(echo) && led.owner[echo] == t;
    assert echo in db.events ==> OwnedOrConfirmed(db, led, echo);
  }

  lemma TypedShows(json: string -> Option<Content>, r: Row, body: string)
    requires ShowsTyped(r, body) && ObjectsAreLonger(json)
    ensures var shown := Render(json, ReadBack(r));
            && !shown.pending && !shown.failed && (r.ev.ty == Message || r.ev.ty == Encrypted)
            && (shown.body == Some(body) && shown.image == None && shown.systemText == None
                <==> r.ev.ty == Message || !IsImageJson(json, body))
  {
  }

  /** The same three store calls, the other way round: acknowledged first, the
      typed text shows; delivered first, image JSON shows as an image. */
  lemma OrderShowsThroughImageText(json: string -> Option<Content>, user: string, room: string, body: string,
      sealed: Sealed)
    requires ObjectsAreLonger(json) && IsImageJson(json, body)
    ensures var queued := QueueSend(EMPTY_DB, "t", "$local-t", room, user, body, 0);
            var ev := EventFor(user, Attempt("t", room, Encrypted, SealedContent(sealed)), "$ev", 0, 1);
            var ackFirst, syncFirst := ApplyOne(ResolveSend(queued, "t", "$ev"), ev),
                ResolveSend(ApplyOne(queued, ev), "t", "$ev");
            && ackFirst.events.Keys == {"$ev"} && syncFirst.events.Keys == {"$ev"}
            && Render(json, ReadBack(ackFirst.events["$ev"])).body == Some(body)
            && Render(json, ReadBack(syncFirst.events["$ev"])).body != Some(body)
  {
    var queued := QueueSend(EMPTY_DB, "t", "$local-t", room, user, body, 0);
    assert "$local-t"[1] != "$ev"[1];
    assert queued.events.Keys == {"$local-t"};
  }

  // --- The token never outruns the state ----------------------------------------------------------

  /** Every event of every room of the response is complete and in the log. */
  ghost predicate EveryEventIn(db: Db, rooms: seq<seq<Wire>>)
  {
    forall i, j | 0 <= i < |rooms| && 0 <= j < |rooms[i]| ::
      Complete(rooms[i][j]) && rooms[i][j].eventId.Some? && rooms[i][j].eventId.value in db.events
  }

  /** The stored token is the last one on its path of responses, and every event
      of every room in those responses is in the log. Until a crash finds memory ahead of the
      keystore, every Welcome in them was joined or is held, was refused by the
      engine, or was skipped because the engine could not say if the group is held. */
  lemma TokenNeverOutrunsState(user: string, states: seq<Sys>, actions: seq<Action>, i: nat)
    requires RunFrom(user, states, actions) && i < |states|
    ensures var s := states[i];
            && (if s.path == [] then s.db.token == None else s.db.token == s.path[|s.path| - 1].next)
            && (forall k | 0 <= k < |s.path| :: EveryEventIn(s.db, s.path[k].rooms))
            && (!s.lossy ==>
                  forall k, n | 0 <= k < |s.path| && 0 <= n < |ToDeviceOf(s.path[k])| ::
                    WelcomeDone(s.engine.device, s.refused + s.unasked, ToDeviceOf(s.path[k])[n]))
  {
    hide Inv, EventsLogged, EveryEventIn;
    RunKeeps(user, states, actions, i);
    TokenAcked(states[i]);
    forall k | 0 <= k < |states[i].path| {
      LoggedInEveryRoom(states[i].db, states[i].path[k]);
    }
  }

  lemma LoggedInEveryRoom(db: Db, resp: Response)
    requires EventsLogged(db, resp)
    ensures EveryEventIn(db, resp.rooms)
  {
    hide Batch, Complete;
    var ws := Batch(resp.rooms);
    ParsesAll(ws);
    BatchTells(resp.rooms);
    forall i, j | 0 <= i < |resp.rooms| && 0 <= j < |resp.rooms[i]|
      ensures resp.rooms[i][j].eventId.Some? && resp.rooms[i][j].eventId.value in db.events
    {
      BatchHolds(resp.rooms, resp.rooms[i][j]);
      var n :| 0 <= n < |ws| && ws[n] == resp.rooms[i][j];
      assert ColumnsOf(ParseAll(ws).value[n], ws[n]);
    }
  }

  lemma TokenAcked(s: Sys)
    requires Inv(s)
    ensures TokenFromPath(s.db.token, s.path)
    ensures forall k | 0 <= k < |s.path| :: EventsLogged(s.db, s.path[k])
    ensures !s.lossy ==> forall k | 0 <= k < |s.path| ::
             WelcomesDone(s.engine.device, Waived(s), s.path[k], |ToDeviceOf(s.path[k])|)
  {
  }

  predicate WriteSucceeds(a: Action)
  {
    match a
    case FlushSeal(io) => io.Works?
    case LoopJoin(_, _, put) => put
    case PassStep(_, io) => io.Works?
    case CreateRoomGroup(_, put) => put
    case Invite(_, _, _, put) => put
    case _ => false
  }

  /** A write that succeeds saves everything earlier writes failed to: after it a
      crash loses nothing, and the promise above is kept across it. */
  lemma SuccessfulWriteCatchesUp(s: Sys, a: Action)
    requires Enabled(s, a) && WriteSucceeds(a) && Do(s, a).engine.device != s.engine.device
    ensures var s' := Do(s, a);
            && s'.engine.saved == s'.engine.device
            && DoCrash(s').engine.device == s'.engine.device && DoCrash(s').lossy == s.lossy
  {
    hide InHand, DoFlushSeal, DoLoopJoin, DoPassStep, FromServer;
    match a
    case FlushSeal(_) => SealWrites(s);
    case LoopJoin(p, accept, put) => JoinWrites(s, p, accept);
    case PassStep(p, _) => PassWrites(s, p);
    case CreateRoomGroup(_, _) =>
    case Invite(_, _, _, _) =>
  }

  ghost predicate Writes(s: Sys, s': Sys)
  {
    s'.lossy == s.lossy && (s'.engine.device != s.engine.device ==> s'.engine.saved == s'.engine.device)
  }

  lemma SealWrites(s: Sys)
    requires SenderAt(s, Seal)
    ensures Writes(s, DoFlushSeal(s, Works))
  {
  }

  lemma JoinWrites(s: Sys, p: nat, accept: bool)
    requires JoiningAt(s, p, true)
    ensures Writes(s, DoLoopJoin(s, p, accept, true))
  {
  }

  lemma PassWrites(s: Sys, p: nat)
    requires p in s.passes && s.passes[p].todo != []
    ensures Writes(s, DoPassStep(s, p, Works))
  {
    hide HasGroup, HasPendingSend, InHand;
  }

  lemma NothingForged(server: Server, resp: Response)
    requires resp.rooms == []
    ensures FromServer(server, Batch(resp.rooms))
  {
  }

  lemma UpToReply(user: string, resp: Response) returns (states: seq<Sys>, actions: seq<Action>)
    requires resp.rooms == []
    ensures actions == [LoopBegin(0), LoopReply(0, resp)] && |states| == 3 && RunFrom(user, states, actions)
    ensures states[2] == Init(user).(loops := map[0 := Folding([], resp)])
  {
    hide IsRun, FromServer;
    JustStarted(user);
    states, actions := [Init(user)], [];
    states, actions := Extend(states, actions, LoopBegin(0));
    NothingForged(Server(map[], map[]), resp);
    states, actions := Extend(states, actions, LoopReply(0, resp));
  }

  lemma UpToFold(user: string, resp: Response) returns (states: seq<Sys>, actions: seq<Action>)
    requires resp.rooms == []
    ensures actions == [LoopBegin(0), LoopReply(0, resp), LoopFold(0)] && |states| == 4
             && RunFrom(user, states, actions)
    ensures states[3] == Init(user).(loops := map[0 := Joining([], resp, 0, false)])
  {
    hide IsRun, FromServer;
    states, actions := UpToReply(user, resp);
    states, actions := Extend(states, actions, LoopFold(0));
  }

  lemma UpToUnasked(user: string, ev: ToDevice, token: string) returns (states: seq<Sys>, actions: seq<Action>)
    requires AsksFirst(ev)
    ensures |actions| == 4 && |states| == 5 && RunFrom(user, states, actions)
    ensures states[4] == Init(user).(loops := map[0 := Joining([], Response([], Some([ev]), Some(token)), 1, false)],
                                     unasked := {ev})
  {
    hide IsRun;
    states, actions := UpToFold(user, Response([], Some([ev]), Some(token)));
    states, actions := Extend(states, actions, LoopAskError(0));
  }

  /** The last exception is real: a Welcome whose group could not be asked for is
      acknowledged with the rest of its response, neither joined nor refused, and the
      server will not send it again. */
  lemma UnaskedWelcomeIsLost(user: string, room: string, token: string) returns (states: seq<Sys>, actions: seq<Action>)
    ensures RunFrom(user, states, actions) && |actions| == 5
    ensures var ev := ToDevice(true, Some(Invitation(room, 1, user)), Some(room));
            var s := states[5];
            && s.db.token == Some(token) && |s.path| == 1 && ToDeviceOf(s.path[0]) == [ev]
            && !HasGroup(s.engine, room) && s.refused == {} && s.loops == map[]
            && Restart(s.engine) == s.engine && !WelcomeDone(s.engine.device, s.refused, ev)
  {
    hide IsRun;
    states, actions := UpToUnasked(user, ToDevice(true, Some(Invitation(room, 1, user)), Some(room)), token);
    states, actions := Extend(states, actions, LoopSave(0));
  }

  // --- No plaintext fallback ----------------------------------------------------------------------

  /** The pass asked at step `i` and saw no group, asked at step `j` and saw no
      marker, and did nothing else in between. */
  ghost predicate DecidedPlain(states: seq<Sys>, actions: seq<Action>, i: nat, j: nat, room: string, txn: string)
  {
    && i < j < |actions| && j < |states|
    && ChosePlain(states, actions, i, j)
    && states[j].sender.todo[0].room == room && states[j].sender.todo[0].txn == txn
    && actions[j] == FlushMark && !IsRoomEncrypted(states[j].db, room)
    && txn in states[j].ledger.queued
  }

  ghost predicate ChosePlain(states: seq<Sys>, actions: seq<Action>, i: nat, j: nat)
  {
    && i < j < |states| && i < |actions| && SenderAt(states[j], Mark)
    && actions[i] == FlushChoose && SenderAt(states[i], Choose)
    && states[i].sender.todo == states[j].sender.todo
    && !HasGroup(states[i].engine, states[i].sender.todo[0].room)
    && forall k | i < k <= j :: states[k].sender == states[j].sender
  }

  lemma OtherSendersNotAtMark(s: Sys, a: Action)
    requires Enabled(s, a) && (a.FlushSeal? || a.FlushResolve? || a.FlushFail? || a.Crash?)
    ensures !SenderAt(Do(s, a), Mark)
  {
    hide ResolveSend, FailSend, Encrypt, InHand, Restart;
  }

  lemma SendingReachesMark(s: Sys, a: Action)
    requires Enabled(s, a) && OnlySends(a) && a != FlushChoose
    ensures !SenderAt(Do(s, a), Mark)
  {
    hide PendingSends, HasGroup, IsRoomEncrypted;
  }

  lemma ChoosingReachesMark(s: Sys)
    requires Enabled(s, FlushChoose) && SenderAt(Do(s, FlushChoose), Mark)
    ensures SenderAt(s, Choose) && s.sender.todo == Do(s, FlushChoose).sender.todo
             && !HasGroup(s.engine, s.sender.todo[0].room)
  {
  }

  lemma OnlyChoosingLeadsToMark(s: Sys, a: Action)
    requires Enabled(s, a) && SenderAt(Do(s, a), Mark) && Do(s, a).sender != s.sender
    ensures a == FlushChoose && SenderAt(s, Choose) && s.sender.todo == Do(s, a).sender.todo
    ensures !HasGroup(s.engine, s.sender.todo[0].room)
  {
    hide Enabled, Do, SenderAt;
    StepFrame(s, a);
    if a == FlushChoose {
      ChoosingReachesMark(s);
    } else if OnlySends(a) {
      SendingReachesMark(s, a);
      assert false;
    } else {
      OtherSendersNotAtMark(s, a);
      assert false;
    }
  }

  lemma {:induction false} MarkWasChosen(user: string, states: seq<Sys>, actions: seq<Action>, j: nat) returns (i: nat)
    requires RunFrom(user, states, actions) && j < |states| && SenderAt(states[j], Mark)
    ensures ChosePlain(states, actions, i, j)
  {
    hide Do, Enabled;
    if states[j].sender == states[j - 1].sender {
      i := MarkWasChosen(user, states, actions, j - 1);
    } else {
      OnlyChoosingLeadsToMark(states[j - 1], actions[j - 1]);
      i := j - 1;
    }
  }

  /** What the pass has decided to send and what is on the wire. */
  function InFlight(s: Sys): set<Attempt>
  {
    s.net + (if s.sender.At? && (s.sender.stage.Send? || s.sender.stage.Wait?) then {s.sender.stage.attempt} else {})
  }

  ghost predicate PlainDecidedAt(s: Sys, action: Action, a: Attempt)
  {
    && action == FlushMark && SenderAt(s, Mark) && !IsRoomEncrypted(s.db, a.room)
    && s.sender.todo[0].room == a.room && s.sender.todo[0].txn == a.txn
  }

  lemma EndsNothingInFlight(s: Sys, action: Action)
    requires Enabled(s, action) && (action.FlushResolve? || action.FlushFail? || action.Crash?)
    ensures InFlight(Do(s, action)) == s.net
  {
    hide ResolveSend, FailSend, InHand, Restart;
  }

  lemma MarkAttempts(s: Sys, a: Attempt)
    requires SenderAt(s, Mark) && a in InFlight(DoFlushMark(s))
    ensures a in s.net || PlainDecidedAt(s, FlushMark, a)
  {
  }

  lemma SealAttempts(s: Sys, io: Io, a: Attempt)
    requires SenderAt(s, Seal) && a in InFlight(DoFlushSeal(s, io)) && a.ty == Message
    ensures a in s.net
  {
    hide Encrypt;
  }

  lemma OtherAttempts(s: Sys, action: Action, a: Attempt)
    requires Enabled(s, action) && OnlySends(action) && action != FlushMark && a in InFlight(Do(s, action))
    ensures a in InFlight(s)
  {
    hide PendingSends, HasGroup, DoFlushMark;
  }

  lemma SenderAttempts(s: Sys, action: Action, a: Attempt)
    requires Enabled(s, action) && (OnlySends(action) || action.FlushSeal?)
    requires a in InFlight(Do(s, action)) && a.ty == Message
    ensures a in InFlight(s) || PlainDecidedAt(s, action, a)
  {
    hide DoFlushMark, DoFlushSeal, InFlight, PlainDecidedAt;
    if action == FlushMark {
      MarkAttempts(s, a);
      InFlightHas(s, a);
    } else if action.FlushSeal? {
      SealAttempts(s, action.io, a);
      InFlightHas(s, a);
    } else {
      OtherAttempts(s, action, a);
    }
  }

  lemma InFlightHas(s: Sys, a: Attempt)
    ensures a in s.net ==> a in InFlight(s)
  {
  }

  lemma NewAttempts(s: Sys, action: Action, a: Attempt)
    requires Enabled(s, action) && a in InFlight(Do(s, action)) && a.ty == Message
    ensures a in InFlight(s) || PlainDecidedAt(s, action, a)
  {
    hide Enabled, Do, PlainDecidedAt;
    if OnlySends(action) || action.FlushSeal? {
      SenderAttempts(s, action, a);
    } else if MovesSender(action) {
      EndsNothingInFlight(s, action);
    } else {
      StepFrame(s, action);
    }
  }

  /** A plaintext event of ours. */
  ghost predicate PlainEvent(s: Sys, id: string, key: TxnKey)
  {
    id in s.origin && id in s.server.events && s.origin[id] == key && s.server.events[id].ty == Message
  }

  lemma PublishedIsNotOurs(s: Sys, ev: Event, id: string, key: TxnKey)
    requires DedupInv(s.server, s.origin) && ev.eventId !in s.server.events
             && PlainEvent(DoServerPublish(s, ev), id, key)
    ensures PlainEvent(s, id, key)
  {
  }

  lemma NewPlainEvent(s: Sys, action: Action, id: string, key: TxnKey)
    requires DedupInv(s.server, s.origin)
    requires Enabled(s, action) && PlainEvent(Do(s, action), id, key) && !PlainEvent(s, id, key)
    ensures action.ServerTake? && action.attempt in InFlight(s) && action.attempt.ty == Message
    ensures key == TxnKey(action.attempt.room, action.attempt.txn)
  {
    if action.ServerPublish? {
      PublishedIsNotOurs(s, action.ev, id, key);
      assert false;
    } else if !action.ServerTake? {
      StepFrame(s, action);
      assert false;
    }
  }

  ghost predicate WasDecided(states: seq<Sys>, actions: seq<Action>, n: nat, room: string, txn: string)
  {
    exists i: nat, j: nat :: DecidedPlain(states, actions, i, j, room, txn) && j < n
  }

  lemma {:induction false} PlainAttemptWasDecided(user: string, states: seq<Sys>, actions: seq<Action>, n: nat,
      a: Attempt)
    requires RunFrom(user, states, actions) && n < |states| && a in InFlight(states[n]) && a.ty == Message
    ensures WasDecided(states, actions, n, a.room, a.txn)
  {
    hide Inv, Do, Enabled;
    NewAttempts(states[n - 1], actions[n - 1], a);
    if a in InFlight(states[n - 1]) {
      PlainAttemptWasDecided(user, states, actions, n - 1, a);
    } else {
      var i := MarkWasChosen(user, states, actions, n - 1);
      RunKeeps(user, states, actions, n - 1);
      SentIsPending(states[n - 1]);
      assert DecidedPlain(states, actions, i, n - 1, a.room, a.txn);
    }
  }

  lemma ReachableDedup(s: Sys)
    requires Inv(s)
    ensures DedupInv(s.server, s.origin)
  {
  }

  /** Every plaintext message of ours on the server was decided by a pass that saw
      no group for the room and then no encryption marker in the log. */
  lemma {:induction false} PlaintextWasDecided(user: string, states: seq<Sys>, actions: seq<Action>, n: nat,
      id: string, key: TxnKey)
    requires RunFrom(user, states, actions) && n < |states| && PlainEvent(states[n], id, key)
    ensures WasDecided(states, actions, n, key.room, key.txn)
  {
    hide Inv, Do, Enabled;
    if PlainEvent(states[n - 1], id, key) {
      PlaintextWasDecided(user, states, actions, n - 1, id, key);
    } else {
      RunKeeps(user, states, actions, n - 1);
      ReachableDedup(states[n - 1]);
      NewPlainEvent(states[n - 1], actions[n - 1], id, key);
      PlainAttemptWasDecided(user, states, actions, n - 1, actions[n - 1].attempt);
    }
  }

  lemma MarkerPersists(user: string, states: seq<Sys>, actions: seq<Action>, i: nat, j: nat, room: string)
    requires RunFrom(user, states, actions) && i <= j < |states| && IsRoomEncrypted(states[i].db, room)
    ensures IsRoomEncrypted(states[j].db, room)
  {
    RunGrows(user, states, actions, i, j);
    var k :| k in states[i].db.roomState && k.room == room && k.ty == Encryption;
    assert k in states[j].db.roomState;
  }

  /** Once a room's marker is stored nothing is decided to go out in plaintext for
      it, and nothing queued from then on ever arrives in plaintext. */
  lemma NoPlaintextFallback(user: string, states: seq<Sys>, actions: seq<Action>, m: nat, n: nat, room: string)
    requires RunFrom(user, states, actions) && m <= n < |states| && IsRoomEncrypted(states[m].db, room)
    ensures forall i: nat, j: nat, txn | m <= j :: !DecidedPlain(states, actions, i, j, room, txn)
    ensures forall id, txn | PlainEvent(states[n], id, TxnKey(room, txn)) :: txn in states[m].ledger.queued
  {
    forall i: nat, j: nat, txn | m <= j && DecidedPlain(states, actions, i, j, room, txn) ensures false {
      MarkerPersists(user, states, actions, m, j, room);
    }
    forall id, txn | PlainEvent(states[n], id, TxnKey(room, txn)) ensures txn in states[m].ledger.queued {
      PlaintextWasDecided(user, states, actions, n, id, TxnKey(room, txn));
      var i: nat, j: nat :| DecidedPlain(states, actions, i, j, room, txn) && j < n;
      if m <= j {
        MarkerPersists(user, states, actions, m, j, room);
      } else {
        RunGrows(user, states, actions, j, m);
      }
    }
  }

  /** The step makes the device hold the room's group. */
  predicate Acquires(s: Sys, a: Action, room: string)
  {
    match a
    case CreateRoomGroup(r, _) => r == room
    case LoopJoin(p, accept, _) =>
      && accept && JoiningAt(s, p, true)
      && var w := ToDeviceOf(s.loops[p].resp)[s.loops[p].i].welcome;
         w.Some? && w.value.Invitation? && w.value.room == room && w.value.invitee == s.user
    case _ => false
  }

  ghost predicate HoldsOrAcquires(s: Sys, a: Action, s': Sys, room: string)
  {
    HasGroup(s'.engine, room) <==> HasGroup(s.engine, room) || Acquires(s, a, room)
  }

  lemma SealHolds(s: Sys, io: Io, room: string)
    requires SenderAt(s, Seal)
    ensures HasGroup(DoFlushSeal(s, io).engine, room) <==> HasGroup(s.engine, room)
  {
  }

  lemma PassHolds(s: Sys, p: nat, io: Io, room: string)
    requires p in s.passes && s.passes[p].todo != []
    ensures HasGroup(DoPassStep(s, p, io).engine, room) <==> HasGroup(s.engine, room)
  {
    hide HasPendingSend;
  }

  lemma JoinHolds(s: Sys, p: nat, accept: bool, put: bool, room: string)
    requires JoiningAt(s, p, true) && s.engine.device.user == s.user
    ensures HoldsOrAcquires(s, LoopJoin(p, accept, put), DoLoopJoin(s, p, accept, put), room)
  {
  }

  lemma GroupHolds(s: Sys, a: Action, room: string)
    requires Enabled(s, a) && (a.CreateRoomGroup? || a.Invite?)
    ensures HoldsOrAcquires(s, a, Do(s, a), room)
  {
  }

  predicate UsesEngine(a: Action)
  {
    a.FlushSeal? || a.LoopJoin? || a.PassStep? || a.CreateRoomGroup? || a.Invite? || a.Crash?
  }

  lemma OthersKeepEngine(s: Sys, a: Action)
    requires Enabled(s, a) && !UsesEngine(a)
    ensures Do(s, a).engine == s.engine
  {
    hide QueueSend, ApplyEvents, SaveToken, PendingMls, PendingSends, ResolveSend, FailSend, HasGroup, IsRoomEncrypted;
    hide FromServer, JoiningAt, EventFor, Batch;
  }

  lemma EngineStepHolds(s: Sys, a: Action, room: string)
    requires Enabled(s, a) && UsesEngine(a) && !a.Crash? && s.engine.device.user == s.user
    ensures HoldsOrAcquires(s, a, Do(s, a), room)
  {
    hide HasGroup, DoFlushSeal, DoPassStep, DoLoopJoin;
    match a
    case FlushSeal(io) => SealHolds(s, io, room);
    case PassStep(p, io) => PassHolds(s, p, io, room);
    case LoopJoin(p, accept, put) => JoinHolds(s, p, accept, put, room);
    case CreateRoomGroup(_, _) => GroupHolds(s, a, room);
    case Invite(_, _, _, _) => GroupHolds(s, a, room);
  }

  /** Short of a crash, groups are held from when they are acquired. */
  lemma StepHolds(s: Sys, a: Action, room: string)
    requires Inv(s) && Enabled(s, a) && !a.Crash?
    ensures HoldsOrAcquires(s, a, Do(s, a), room)
  {
    assert s.engine.device.user == s.user;
    hide Inv, Do, Enabled;
    if UsesEngine(a) {
      EngineStepHolds(s, a, room);
    } else {
      OthersKeepEngine(s, a);
    }
  }

  ghost predicate AcquiredBetween(states: seq<Sys>, actions: seq<Action>, i: nat, j: nat, room: string)
    requires j <= |actions| && j <= |states|
  {
    exists k :: i <= k < j && Acquires(states[k], actions[k], room)
  }

  lemma {:induction false} HeldSince(user: string, states: seq<Sys>, actions: seq<Action>, i: nat, j: nat, room: string)
    requires RunFrom(user, states, actions) && i <= j < |states| && forall k | i <= k < j :: !actions[k].Crash?
    ensures HasGroup(states[j].engine, room) <==>
              HasGroup(states[i].engine, room) || AcquiredBetween(states, actions, i, j, room)
    decreases j
  {
    hide Inv, Do, Enabled, HasGroup, Acquires;
    if i < j {
      HeldSince(user, states, actions, i, j - 1, room);
      RunKeeps(user, states, actions, j - 1);
      StepHolds(states[j - 1], actions[j - 1], room);
    }
  }

  // --- A Welcome skipped unasked -------------------------------------------------------------

  /** The step hands the engine this Welcome and is refused. */
  predicate Refuses(s: Sys, a: Action, ev: ToDevice)
  {
    && a.LoopJoin? && JoiningAt(s, a.p, true) && ToDeviceOf(s.loops[a.p].resp)[s.loops[a.p].i] == ev
    && ev.welcome.Some? && !JoinFromWelcome(s.engine, ev.welcome.value, a.accept, a.put).1
  }

  lemma JoinRefuses(s: Sys, p: nat, accept: bool, put: bool, ev: ToDevice)
    requires JoiningAt(s, p, true)
    ensures ev in DoLoopJoin(s, p, accept, put).refused <==> ev in s.refused || Refuses(s, LoopJoin(p, accept, put), ev)
  {
    hide JoinFromWelcome;
  }

  lemma LoopRefuses(s: Sys, a: Action)
    requires Enabled(s, a) && OnlyLoops(a) && !a.LoopJoin?
    ensures Do(s, a).refused == s.refused
  {
    hide FromServer, HasGroup, ApplyEvents, Batch, SaveToken, JoiningAt, AsksFirst, ToDeviceOf;
  }

  lemma OtherRefuses(s: Sys, a: Action)
    requires Enabled(s, a) && !OnlyLoops(a) && !OnlySends(a) && !a.PassStep?
    ensures Do(s, a).refused == s.refused
  {
    hide FromServer, JoiningAt, HasGroup, QueueSend, ApplyEvents, CreateGroup, AddMember, PendingSends, PendingMls,
        ResolveSend, FailSend, Encrypt, EventFor, InHand;
  }

  lemma StepRefuses(s: Sys, a: Action, ev: ToDevice)
    requires Enabled(s, a)
    ensures ev in Do(s, a).refused <==> ev in s.refused || Refuses(s, a, ev)
  {
    hide Do, Enabled;
    if a.LoopJoin? {
      JoinStepIs(s, a.p, a.accept, a.put);
      JoinRefuses(s, a.p, a.accept, a.put, ev);
    } else if OnlyLoops(a) {
      LoopRefuses(s, a);
    } else if OnlySends(a) {
      SendingFrame(s, a);
    } else if a.PassStep? {
      PassStepIs(s, a.p, a.io);
      PassFrame(s, a.p, a.io);
    } else {
      OtherRefuses(s, a);
    }
  }

  ghost predicate RefusedBetween(states: seq<Sys>, actions: seq<Action>, i: nat, j: nat, ev: ToDevice)
    requires j <= |actions| && j <= |states|
  {
    exists k :: i <= k < j && Refuses(states[k], actions[k], ev)
  }

  lemma {:induction false} RefusedSince(states: seq<Sys>, actions: seq<Action>, i: nat, j: nat, ev: ToDevice)
    requires IsRun(states, actions) && i <= j < |states|
    ensures ev in states[j].refused <==> ev in states[i].refused || RefusedBetween(states, actions, i, j, ev)
    decreases j
  {
    hide Do, Enabled, Refuses;
    if i < j {
      RefusedSince(states, actions, i, j - 1, ev);
      StepRefuses(states[j - 1], actions[j - 1], ev);
    }
  }

  /** Some step acquired a group the Welcome names or carries. */
  ghost predicate GroupCame(states: seq<Sys>, actions: seq<Action>, i: nat, j: nat, ev: ToDevice)
    requires j <= |actions| && j <= |states|
  {
    || (ev.room.Some? && AcquiredBetween(states, actions, i, j, ev.room.value))
    || (ev.welcome.Some? && ev.welcome.value.Invitation?
        && AcquiredBetween(states, actions, i, j, ev.welcome.value.room))
  }

  lemma AskErrorIs(s: Sys, p: nat)
    requires Enabled(s, LoopAskError(p))
    ensures JoiningAt(s, p, false) && AsksFirst(ToDeviceOf(s.loops[p].resp)[s.loops[p].i])
  {
  }

  /** A Welcome skipped because the engine could not be asked stays lost, neither
      held nor refused, if and only if it was so when it was skipped and no step since
      acquired its group or was refused the same Welcome delivered again. */
  lemma UnaskedStaysLostIff(user: string, states: seq<Sys>, actions: seq<Action>, i: nat, j: nat, p: nat)
    requires RunFrom(user, states, actions) && i < j < |states| && actions[i] == LoopAskError(p)
    requires forall k | i <= k < j :: !actions[k].Crash?
    ensures JoiningAt(states[i], p, false)
    ensures var ev := ToDeviceOf(states[i].loops[p].resp)[states[i].loops[p].i];
            !WelcomeDone(states[j].engine.device, states[j].refused, ev)
            <==> (!WelcomeDone(states[i].engine.device, states[i].refused, ev)
                  && !GroupCame(states, actions, i, j, ev) && !RefusedBetween(states, actions, i, j, ev))
  {
    hide Do, Enabled, AcquiredBetween, RefusedBetween;
    AskErrorIs(states[i], p);
    var ev := ToDeviceOf(states[i].loops[p].resp)[states[i].loops[p].i];
    RefusedSince(states, actions, i, j, ev);
    HeldSince(user, states, actions, i, j, ev.room.value);
    if ev.welcome.value.Invitation? {
      HeldSince(user, states, actions, i, j, ev.welcome.value.room);
    }
  }

  lemma CrashEndsThePass(s: Sys)
    ensures DoCrash(s).sender.Off? && Do(s, Crash) == DoCrash(s)
  {
  }

  /** A plaintext send was decided with no group held if and only if no step between
      the two questions acquired the group. */
  lemma HeldWhenDecidedIff(user: string, states: seq<Sys>, actions: seq<Action>, i: nat, j: nat, room: string,
      txn: string)
    requires RunFrom(user, states, actions) && DecidedPlain(states, actions, i, j, room, txn)
    ensures !HasGroup(states[j].engine, room) <==> !AcquiredBetween(states, actions, i + 1, j, room)
  {
    hide Inv, Do, HasGroup, Acquires;
    forall k | i <= k < j ensures !actions[k].Crash? {
      assert states[k + 1].sender == states[j].sender;
      CrashEndsThePass(states[k]);
    }
    HeldSince(user, states, actions, i, i + 1, room);
    ChoosingAcquiresNothing(states[i], room);
    HeldSince(user, states, actions, i + 1, j, room);
  }

  lemma ChoosingAcquiresNothing(s: Sys, room: string)
    ensures !Acquires(s, FlushChoose, room)
  {
  }

  lemma OneInQueue(db: Db, txn: string)
    requires db.pending.Keys == {txn}
    ensures PendingSends(db) == [Queued(txn, db.pending[txn].room, db.pending[txn].body)]
  {
    var rank := Rank(db.pending[txn].created, txn);
    assert QueueRanks(db) == {rank};
    assert rank in QueueRanks(db);
    assert Ordered(QueueRanks(db))[0] in QueueRanks(db);
  }

  /** One message queued, and the pass has just seen no group for its room. */
  function Asked(user: string, room: string, body: string): Sys
  {
    var s := DoQueue(Init(user), "t", "$local-t", room, body, 0);
    s.(sender := At([Queued("t", room, body)], Mark))
  }

  lemma UpToAsking(user: string, room: string, body: string) returns (states: seq<Sys>, actions: seq<Action>)
    ensures |states| == 4 && actions == [Queue("t", "$local-t", room, body, 0), FlushBegin, FlushChoose]
    ensures RunFrom(user, states, actions) && states[3] == Asked(user, room, body)
    ensures states[2] == states[3].(sender := At([Queued("t", room, body)], Choose))
  {
    hide IsRun;
    JustStarted(user);
    OneInQueue(QueueSend(EMPTY_DB, "t", "$local-t", room, user, body, 0), "t");
    assert "$local-t"[..7] == "$local-";
    states := [Init(user)];
    actions := [];
    states, actions := Extend(states, actions, Queue("t", "$local-t", room, body, 0));
    states, actions := Extend(states, actions, FlushBegin);
    states, actions := Extend(states, actions, FlushChoose);
  }

  /** The two questions are separate calls, so no single state need answer both:
      here the group is created in between, and a plaintext message goes out
      although a group is held when it is decided. */
  lemma GroupBetweenTheQuestions(user: string, room: string, body: string)
      returns (states: seq<Sys>, actions: seq<Action>)
    ensures RunFrom(user, states, actions) && |actions| == 5
    ensures DecidedPlain(states, actions, 2, 4, room, "t") && HasGroup(states[4].engine, room)
    ensures states[5].sender.At? && states[5].sender.stage == Send(Attempt("t", room, Message, TextContent(body)))
  {
    hide IsRun;
    states, actions := UpToAsking(user, room, body);
    states, actions := Extend(states, actions, CreateRoomGroup(room, true));
    states, actions := Extend(states, actions, FlushMark);
  }

  lemma JustStarted(user: string)
    ensures IsRun([Init(user)], [])
  {
  }

  lemma Extend(states: seq<Sys>, actions: seq<Action>, a: Action) returns (states': seq<Sys>, actions': seq<Action>)
    requires IsRun(states, actions) && Enabled(states[|actions|], a)
    ensures states' == states + [Do(states[|actions|], a)] && actions' == actions + [a] && IsRun(states', actions')
  {
    hide Do, Enabled;
    states', actions' := states + [Do(states[|actions|], a)], actions + [a];
    forall i | 0 <= i < |actions'| ensures Enabled(states'[i], actions'[i])
        && states'[i + 1] == Do(states'[i], actions'[i]) {
      assert i < |actions| ==> states'[i] == states[i] && actions'[i] == actions[i] && states'[i + 1] == states[i + 1];
    }
  }
}
