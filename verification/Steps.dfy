/** Every step keeps the invariant. */
module Steps {
  import opened Base
  import opened Order
  import opened Mls
  import opened Events
  import opened T = Tables
  import opened CurrentState
  import opened Inbound
  import opened Flush
  import opened Sync
  import opened Machine
  import opened Invariants

  // --- What a store change must respect ------------------------------------------------

  lemma PassesPersist(db: Db, db': Db, user: string, passes: map<nat, Pass>)
    requires RowsPersist(db, db') && PassesStand(db, user, passes)
    ensures PassesStand(db', user, passes)
  {
    forall p | p in passes ensures PassStands(db', user, passes[p]) {
      assert PassStands(db, user, passes[p]);
      forall i | 0 <= i < |passes[p].todo| ensures ItemStands(db', passes[p].todo[i]) {
        assert ItemStands(db, passes[p].todo[i]);
      }
    }
  }

  lemma OpenedPersist(db: Db, db': Db, passes: map<nat, Pass>, unsealed: set<string>, lost: set<string>)
    requires RowsPersist(db, db') && OpenedKept(db, passes, unsealed, lost)
    ensures OpenedKept(db', passes, unsealed, lost)
  {
  }

  lemma PathGrows(device: Device, device': Device, waived: set<ToDevice>, waived': set<ToDevice>, path: seq<Response>)
    requires device.groups.Keys <= device'.groups.Keys && waived <= waived'
    requires PathDone(device, waived, path)
    ensures PathDone(device', waived', path)
  {
    forall i | 0 <= i < |path| ensures WelcomesDone(device', waived', path[i], |ToDeviceOf(path[i])|) {
      assert WelcomesDone(device, waived, path[i], |ToDeviceOf(path[i])|);
    }
  }

  lemma LoopsGrow(device: Device, device': Device, waived: set<ToDevice>, waived': set<ToDevice>, loops: map<nat, Loop>)
    requires device.groups.Keys <= device'.groups.Keys && waived <= waived'
    requires LoopsDone(device, waived, loops)
    ensures LoopsDone(device', waived', loops)
  {
    forall p | p in loops ensures LoopDone(device', waived', loops[p]) {
      assert LoopDone(device, waived, loops[p]);
      PathGrows(device, device', waived, waived', loops[p].path);
    }
  }

  lemma PathPersists(db: Db, db': Db, path: seq<Response>)
    requires RowsPersist(db, db') && PathLogged(db, path)
    ensures PathLogged(db', path)
  {
    forall i | 0 <= i < |path| ensures EventsLogged(db', path[i]) {
      assert EventsLogged(db, path[i]);
    }
  }

  lemma LoggedPersists(db: Db, db': Db, path: seq<Response>, loops: map<nat, Loop>)
    requires RowsPersist(db, db') && AllLogged(db, path, loops)
    ensures AllLogged(db', path, loops)
  {
    PathPersists(db, db', path);
    forall p | p in loops ensures LoopLogged(db', loops[p]) {
      assert LoopLogged(db, loops[p]);
      PathPersists(db, db', loops[p].path);
    }
  }

  /** The parts of the invariant that only need server rows to persist. */
  lemma StoreChange(s: Sys, db': Db)
    requires Inv(s) && RowsPersist(s.db, db')
    ensures PassesStand(db', s.user, s.passes)
    ensures OpenedKept(db', s.passes, s.unsealed, s.lost)
    ensures AllLogged(db', s.path, s.loops)
  {
    PassesPersist(s.db, db', s.user, s.passes);
    OpenedPersist(s.db, db', s.passes, s.unsealed, s.lost);
    LoggedPersists(s.db, db', s.path, s.loops);
  }

  // --- Queueing ----------------------------------------------------------------------------

  ghost predicate FreshSend(led: Ledger, txn: string, echo: string)
  {
    txn !in led.queued && IsLocal(echo) && echo !in led.owner
  }

  function WithQueued(led: Ledger, txn: string, p: Pending): Ledger
  {
    led.(queued := led.queued[txn := p], owner := led.owner[p.echo := txn])
  }

  lemma NewEcho(db: Db, led: Ledger, txn: string, echo: string)
    requires QueueInv(db, led) && FreshSend(led, txn, echo)
    ensures echo !in db.events && txn !in db.pending && txn !in led.resolved && txn !in led.failed
  {
  }

  lemma NewOwner(led: Ledger, txn: string, p: Pending)
    requires OwnersAgree(led) && FreshSend(led, txn, p.echo)
    ensures OwnersAgree(WithQueued(led, txn, p))
  {
  }

  lemma QueueConserves(db: Db, db': Db, led: Ledger, txn: string, p: Pending)
    requires Conserved(db, led) && txn !in led.queued && db'.pending == db.pending[txn := p]
    ensures Conserved(db', WithQueued(led, txn, p))
  {
    var led' := WithQueued(led, txn, p);
    assert led'.queued.Keys == led.queued.Keys + {txn};
    assert db'.pending.Keys == db.pending.Keys + {txn};
  }

  lemma QueueEchoes(db: Db, db': Db, led: Ledger, txn: string, p: Pending, row: Row)
    requires QueueInv(db, led) && FreshSend(led, txn, p.echo)
    requires db'.pending == db.pending[txn := p] && db'.events == db.events[p.echo := row] && IsEcho(row, p, Sending)
    requires Conserved(db', WithQueued(led, txn, p))
    ensures EchoesMatch(db', WithQueued(led, txn, p))
  {
    hide Conserved, IsEcho;
    NewEcho(db, led, txn, p.echo);
    var led' := WithQueued(led, txn, p);
    forall t | t in db'.pending ensures EchoOf(db', led', t, Sending) {
      assert t != txn ==> EchoOf(db, led, t, Sending);
    }
    forall t | t in led'.failed ensures EchoOf(db', led', t, Failed) {
      assert EchoOf(db, led, t, Failed);
    }
    forall id | id in db'.events ensures OwnedOrConfirmed(db', led', id) {
      assert id != p.echo ==> OwnedOrConfirmed(db, led, id);
    }
  }

  lemma QueueServer(user: string, server: Server, net: set<Attempt>, queued: map<string, Pending>, origin: map<string,
      TxnKey>, txn: string, p: Pending)
    requires ServerInv(user, server, net, queued, origin) && txn !in queued
    ensures ServerInv(user, server, net, queued[txn := p], origin)
  {
  }

  lemma QueueSender(user: string, db: Db, db': Db, server: Server, sender: Sender, txn: string, p: Pending)
    requires SenderInv(user, db, server, sender) && txn !in db.pending && db'.pending == db.pending[txn := p]
    ensures SenderInv(user, db', server, sender)
  {
  }

  lemma NewEchoPersists(db: Db, db': Db, server: Server, origin: map<string, TxnKey>, resolved: map<string, string>,
      echo: string, row: Row)
    requires IsLocal(echo) && db'.events == db.events[echo := row] && RowsFromServer(db, server, origin, resolved)
    ensures RowsPersist(db, db') && RowsFromServer(db', server, origin, resolved)
  {
  }

  lemma NewEchoShows(db: Db, db': Db, server: Server, queued: map<string, Pending>, resolved: map<string, string>,
      txn: string, p: Pending, row: Row)
    requires ResolvedShown(db, server, queued, resolved) && txn !in queued && txn !in resolved
    requires p.echo !in db.events && db'.events == db.events[p.echo := row]
    ensures ResolvedShown(db', server, queued[txn := p], resolved)
  {
    hide ShowsTyped;
  }

  lemma QueueRows(db: Db, db': Db, server: Server, origin: map<string, TxnKey>, led: Ledger, txn: string, p: Pending,
      row: Row)
    requires QueueInv(db, led) && FreshSend(led, txn, p.echo)
    requires db'.events == db.events[p.echo := row] && IsEcho(row, p, Sending)
    requires RowsFromServer(db, server, origin, led.resolved) && ResolvedShown(db, server, led.queued, led.resolved)
    requires CacheTrue(db)
    ensures RowsPersist(db, db') && RowsFromServer(db', server, origin, led.resolved)
    ensures ResolvedShown(db', server, WithQueued(led, txn, p).queued, led.resolved) && CacheTrue(db')
  {
    hide QueueInv, RowsFromServer, ResolvedShown, CacheTrue, RowsPersist;
    NewEcho(db, led, txn, p.echo);
    NewEchoPersists(db, db', server, origin, led.resolved, p.echo, row);
    NewEchoShows(db, db', server, led.queued, led.resolved, txn, p, row);
    EchoIsNotCached(db, db', p.echo, row);
  }

  lemma EchoIsNotCached(db: Db, db': Db, echo: string, row: Row)
    requires CacheTrue(db) && echo !in db.events && db'.events == db.events[echo := row] && row.decrypted.None?
    ensures CacheTrue(db')
  {
    hide SealsText;
  }

  lemma QueueStep(s: Sys, txn: string, echo: string, room: string, body: string, ts: int)
    requires Inv(s) && FreshSend(s.ledger, txn, echo)
    ensures Inv(DoQueue(s, txn, echo, room, body, ts))
  {
    hide Conserved, OwnersAgree, EchoesMatch, WellFormed, DedupInv, OriginsFaithful, NetFaithful, SenderInv, StoreInv,
        RowsFromServer;
    hide ResolvedShown, CacheTrue, PassesStand, OpenedKept, AllLogged, AllAcked, RepliesGenuine, NextDepth;
    var s' := DoQueue(s, txn, echo, room, body, ts);
    var p := Pending(room, body, echo, ts);
    var row := EchoRow(echo, room, s.user, body, ts, NextDepth(s.db.events, room));
    NewEcho(s.db, s.ledger, txn, echo);
    NewOwner(s.ledger, txn, p);
    QueueConserves(s.db, s'.db, s.ledger, txn, p);
    QueueEchoes(s.db, s'.db, s.ledger, txn, p, row);
    QueueServer(s.user, s.server, s.net, s.ledger.queued, s.origin, txn, p);
    QueueSender(s.user, s.db, s'.db, s.server, s.sender, txn, p);
    QueueSendKeeps(s.db, s.server.events, txn, echo, room, s.user, body, ts);
    QueueRows(s.db, s'.db, s.server, s.origin, s.ledger, txn, p, row);
    StoreChange(s, s'.db);
  }

  // --- Steps of the flush pass that leave the store alone ---------------------------------

  lemma TailQueued(db: Db, todo: seq<Queued>)
    requires AllQueued(db, todo) && todo != []
    ensures AllQueued(db, todo[1..])
  {
    assert forall i | 0 <= i < |todo[1..]| :: todo[1..][i] == todo[i + 1];
  }

  /** Only the pass itself and what it has put on the wire change. */
  lemma SenderMoves(s: Sys, sender': Sender, net': set<Attempt>)
    requires Inv(s)
    requires SenderInv(s.user, s.db, s.server, sender')
    requires forall a | a in net' && a !in s.net :: FaithfulAttempt(s.user, s.ledger.queued, a)
    ensures Inv(s.(sender := sender', net := net'))
  {
    assert ServerInv(s.user, s.server, net', s.ledger.queued, s.origin);
  }

  lemma BeginFlushStep(s: Sys)
    requires Inv(s)
    ensures Inv(DoFlushBegin(s))
  {
    QueueIsDistinct(s.db);
    SenderMoves(s, DoFlushBegin(s).sender, s.net);
  }

  lemma StageStep(s: Sys, stage: SendStage)
    requires Inv(s) && s.sender.At? && StageInv(s.user, s.server, s.sender.todo[0], stage)
    ensures Inv(DoSend(s, stage))
  {
    SenderMoves(s, DoSend(s, stage).sender, s.net);
  }

  lemma MarkStep(s: Sys)
    requires Inv(s) && SenderAt(s, Mark)
    ensures Inv(DoFlushMark(s))
  {
    hide Conserved, OwnersAgree, EchoesMatch, ServerInv, LogInv, IsRoomEncrypted;
    hide ResolvedShown, CacheTrue, PassesStand, OpenedKept, PathDone, LoopsDone, PathLogged, LoopsLogged,
        RepliesGenuine;
    TailQueued(s.db, s.sender.todo);
    SenderMoves(s, DoFlushMark(s).sender, s.net);
  }

  lemma AttemptFaithful(user: string, db: Db, led: Ledger, server: Server, sender: Sender)
    requires QueueInv(db, led) && SenderInv(user, db, server, sender) && sender.At? && sender.stage.Send?
    ensures FaithfulAttempt(user, led.queued, sender.stage.attempt)
    ensures SenderInv(user, db, server, sender.(stage := Wait(sender.stage.attempt)))
  {
  }

  lemma TransmitStep(s: Sys)
    requires Inv(s) && s.sender.At? && s.sender.stage.Send?
    ensures Inv(DoFlushTransmit(s))
  {
    hide Conserved, OwnersAgree, EchoesMatch, ServerInv, AllQueued, StageInv, StoreInv, RowsFromServer;
    hide ResolvedShown, CacheTrue, PassesStand, OpenedKept, PathDone, LoopsDone, PathLogged, LoopsLogged,
        RepliesGenuine;
    AttemptFaithful(s.user, s.db, s.ledger, s.server, s.sender);
    SenderMoves(s, DoFlushTransmit(s).sender, DoFlushTransmit(s).net);
  }

  // --- Settling a send -----------------------------------------------------------------------

  /** An acknowledged send, its echo, and what the server made of it. */
  ghost predicate AckFacts(user: string, db: Db, server: Server, led: Ledger, origin: map<string, TxnKey>,
      txn: string, id: string)
  {
    && txn in db.pending && txn in led.queued && db.pending[txn] == led.queued[txn]
    && IsLocal(led.queued[txn].echo) && led.queued[txn].echo in db.events
    && IsEcho(db.events[led.queued[txn].echo], led.queued[txn], Sending)
    && !IsLocal(id) && id in server.events && id in origin && origin[id] == TxnKey(led.queued[txn].room, txn)
    && FaithfulEvent(user, led.queued, origin[id], server.events[id])
    && (id in db.events ==> db.events[id].ev == server.events[id] && db.events[id].local == Confirmed)
  }

  lemma AckHasFacts(user: string, db: Db, server: Server, net: set<Attempt>, led: Ledger, origin: map<string, TxnKey>,
      q: Queued, id: string)
    requires QueueInv(db, led) && ServerInv(user, server, net, led.queued, origin)
    requires RowsFromServer(db, server, origin, led.resolved)
    requires q.txn in db.pending && db.pending[q.txn].room == q.room
    requires StageInv(user, server, q, Got(id))
    ensures AckFacts(user, db, server, led, origin, q.txn, id)
  {
    hide FaithfulEvent, IsEcho, NetFaithful, WellFormed;
    assert EchoOf(db, led, q.txn, Sending);
    assert led.owner[led.queued[q.txn].echo] == q.txn;
  }

  ghost predicate SettledRows(db: Db, db': Db, server: Server, echo: string, id: string, body: string)
  {
    && id in db'.events && ShowsTyped(db'.events[id], body)
    && (forall e | e in db'.events && e != id :: e in db.events && db'.events[e] == db.events[e])
    && (forall e | e in db.events && e != echo :: e in db'.events)
    && echo !in db'.events
    && id in server.events
    && (db'.events[id].ev == server.events[id] || (db'.events[id].ev.ty == Message && db'.events[id].ev.stateKey.None?))
  }

  lemma ResolveRows(user: string, db: Db, server: Server, led: Ledger, origin: map<string, TxnKey>, txn: string,
      id: string)
    requires AckFacts(user, db, server, led, origin, txn, id) && CacheTrue(db)
    ensures var db', p := ResolveSend(db, txn, id), led.queued[txn];
            && SettledRows(db, db', server, p.echo, id, p.body)
            && RowsPersist(db, db') && CacheTrue(db')
            && db'.pending == db.pending - {txn} && db'.token == db.token
  {
    ResolveEffect(db, txn, id);
  }

  function WithResolved(led: Ledger, txn: string, id: string): Ledger
  {
    led.(resolved := led.resolved[txn := id])
  }

  lemma ResolveConserves(db: Db, db': Db, led: Ledger, txn: string, id: string)
    requires Conserved(db, led) && txn in db.pending && db'.pending == db.pending - {txn}
    ensures Conserved(db', WithResolved(led, txn, id))
  {
    assert WithResolved(led, txn, id).resolved.Keys == led.resolved.Keys + {txn};
    assert db'.pending.Keys == db.pending.Keys - {txn};
  }

  lemma EchoStays(db: Db, db': Db, server: Server, led: Ledger, txn: string, id: string, t: string, local: SendState)
    requires OwnersAgree(led) && txn in led.queued && EchoOf(db, led, t, local) && t != txn
    requires !IsLocal(id) && SettledRows(db, db', server, led.queued[txn].echo, id, led.queued[txn].body)
    ensures EchoOf(db', WithResolved(led, txn, id), t, local)
  {
    hide ShowsTyped, IsEcho;
    assert led.owner[led.queued[t].echo] == t;
  }

  lemma OwnedAfterResolve(db: Db, db': Db, server: Server, led: Ledger, txn: string, id: string)
    requires QueueInv(db, led) && txn in db.pending && db'.pending == db.pending - {txn}
    requires !IsLocal(id) && SettledRows(db, db', server, led.queued[txn].echo, id, led.queued[txn].body)
    ensures forall e | e in db'.events :: OwnedOrConfirmed(db', WithResolved(led, txn, id), e)
  {
    hide Conserved, IsEcho;
    assert OwnersAgree(led);
    forall e | e in db'.events ensures OwnedOrConfirmed(db', WithResolved(led, txn, id), e) {
      assert e in db.events ==> OwnedOrConfirmed(db, led, e);
    }
  }

  lemma ResolveEchoes(db: Db, db': Db, server: Server, led: Ledger, txn: string, id: string)
    requires QueueInv(db, led) && txn in db.pending && db'.pending == db.pending - {txn}
    requires Conserved(db', WithResolved(led, txn, id))
    requires !IsLocal(id) && SettledRows(db, db', server, led.queued[txn].echo, id, led.queued[txn].body)
    ensures QueueInv(db', WithResolved(led, txn, id))
  {
    hide SettledRows, EchoOf, OwnedOrConfirmed, IsLocal;
    var led' := WithResolved(led, txn, id);
    forall t | t in db'.pending ensures EchoOf(db', led', t, Sending) {
      EchoStays(db, db', server, led, txn, id, t, Sending);
    }
    forall t | t in led'.failed ensures EchoOf(db', led', t, Failed) {
      EchoStays(db, db', server, led, txn, id, t, Failed);
    }
    OwnedAfterResolve(db, db', server, led, txn, id);
  }

  lemma ResolveShown(db: Db, db': Db, server: Server, led: Ledger, origin: map<string, TxnKey>, txn: string, id: string)
    requires ResolvedShown(db, server, led.queued, led.resolved) && DedupInv(server, origin)
    requires txn in led.queued && txn !in led.resolved && id in origin
             && origin[id] == TxnKey(led.queued[txn].room, txn)
    requires SettledRows(db, db', server, led.queued[txn].echo, id, led.queued[txn].body)
    requires forall e | e in server.events :: !IsLocal(e)
    requires IsLocal(led.queued[txn].echo)
    ensures ResolvedShown(db', server, led.queued, WithResolved(led, txn, id).resolved)
  {
    forall t | t in led.resolved
      ensures led.resolved[t] in db'.events && db'.events[led.resolved[t]] == db.events[led.resolved[t]]
    {
      assert origin[led.resolved[t]] == TxnKey(led.queued[t].room, t);
    }
  }

  lemma ResolveLog(user: string, db: Db, server: Server, led: Ledger, origin: map<string, TxnKey>, txn: string,
      id: string)
    requires LogInv(db, server, origin, led.resolved) && AckFacts(user, db, server, led, origin, txn, id)
    requires SettledRows(db, ResolveSend(db, txn, id), server, led.queued[txn].echo, id, led.queued[txn].body)
    ensures LogInv(ResolveSend(db, txn, id), server, origin, WithResolved(led, txn, id).resolved)
  {
    ResolveSendKeeps(db, server.events, txn, id);
    assert RowsFromServer(ResolveSend(db, txn, id), server, origin, WithResolved(led, txn, id).resolved);
  }

  lemma RestQueued(db: Db, db': Db, user: string, server: Server, todo: seq<Queued>)
    requires todo != [] && AllQueued(db, todo) && db'.pending == db.pending - {todo[0].txn}
    ensures SenderInv(user, db', server, NextSend(todo))
  {
    assert forall i | 0 <= i < |todo[1..]| :: todo[1..][i] == todo[i + 1];
  }

  lemma SentIsPending(s: Sys)
    requires Inv(s) && s.sender.At?
    ensures var q := s.sender.todo[0];
            && q.txn in s.db.pending && s.db.pending[q.txn].room == q.room
                 && s.db.pending[q.txn] == s.ledger.queued[q.txn]
            && q.txn !in s.ledger.resolved && q.txn !in s.ledger.failed && q.txn in s.ledger.queued
            && StageInv(s.user, s.server, q, s.sender.stage)
  {
  }

  lemma ResolveStep(s: Sys)
    requires Inv(s) && s.sender.At? && s.sender.stage.Got?
    ensures Inv(DoFlushResolve(s))
  {
    hide Conserved, OwnersAgree, EchoesMatch, WellFormed, OriginsFaithful, NetFaithful, AllQueued, StoreInv,
        SettledRows, IsEcho, FaithfulEvent;
    hide RowsFromServer, ResolvedShown, CacheTrue, PassesStand, OpenedKept, AllLogged, AllAcked, RepliesGenuine,
        RowsPersist;
    var s' := DoFlushResolve(s);
    var q, id := s.sender.todo[0], s.sender.stage.id;
    SentIsPending(s);
    AckHasFacts(s.user, s.db, s.server, s.net, s.ledger, s.origin, q, id);
    ResolveRows(s.user, s.db, s.server, s.ledger, s.origin, q.txn, id);
    ResolveConserves(s.db, s'.db, s.ledger, q.txn, id);
    ResolveEchoes(s.db, s'.db, s.server, s.ledger, q.txn, id);
    ResolveShown(s.db, s'.db, s.server, s.ledger, s.origin, q.txn, id);
    ResolveLog(s.user, s.db, s.server, s.ledger, s.origin, q.txn, id);
    RestQueued(s.db, s'.db, s.user, s.server, s.sender.todo);
    StoreChange(s, s'.db);
  }

  ghost predicate EchoFails(db: Db, db': Db, led: Ledger, txn: string)
  {
    && txn in led.queued && led.queued[txn].echo in db.events
    && db' == db.(events := db.events[led.queued[txn].echo := db.events[led.queued[txn].echo].(local := Failed)],
                  pending := db.pending - {txn})
  }

  lemma FailEffect(db: Db, led: Ledger, txn: string)
    requires QueueInv(db, led) && txn in db.pending
    ensures EchoFails(db, FailSend(db, txn), led, txn) && IsLocal(led.queued[txn].echo)
    ensures db.events[led.queued[txn].echo].local != Confirmed && OwnedOrConfirmed(db, led, led.queued[txn].echo)
  {
    assert EchoOf(db, led, txn, Sending);
    assert led.owner[led.queued[txn].echo] == txn;
  }

  function WithFailed(led: Ledger, txn: string): Ledger
  {
    led.(failed := led.failed + {txn})
  }

  lemma FailConserves(db: Db, db': Db, led: Ledger, txn: string)
    requires Conserved(db, led) && txn in db.pending && db'.pending == db.pending - {txn}
    ensures Conserved(db', WithFailed(led, txn))
  {
    assert db'.pending.Keys == db.pending.Keys - {txn};
  }

  lemma OtherEchoStays(db: Db, db': Db, led: Ledger, txn: string, t: string, local: SendState)
    requires OwnersAgree(led) && txn in led.queued && t in led.queued && t != txn
    requires EchoFails(db, db', led, txn) && EchoOf(db, led, t, local)
    ensures EchoOf(db', WithFailed(led, txn), t, local)
  {
    assert led.owner[led.queued[t].echo] == t && led.owner[led.queued[txn].echo] == txn;
  }

  /** The failing send's own row, and that of every other. */
  lemma OwnedAfterFail(db: Db, db': Db, led: Ledger, txn: string)
    requires QueueInv(db, led) && txn in db.pending && EchoFails(db, db', led, txn)
    ensures EchoOf(db', WithFailed(led, txn), txn, Failed)
    ensures forall id | id in db'.events :: OwnedOrConfirmed(db', WithFailed(led, txn), id)
  {
    hide Conserved;
    assert EchoOf(db, led, txn, Sending);
    forall id | id in db'.events ensures OwnedOrConfirmed(db', WithFailed(led, txn), id) {
      assert OwnedOrConfirmed(db, led, id);
    }
  }

  lemma FailEchoes(db: Db, db': Db, led: Ledger, txn: string)
    requires QueueInv(db, led) && txn in db.pending && EchoFails(db, db', led, txn)
    requires Conserved(db', WithFailed(led, txn))
    ensures QueueInv(db', WithFailed(led, txn))
  {
    hide EchoOf, OwnedOrConfirmed, EchoFails;
    var led' := WithFailed(led, txn);
    OwnedAfterFail(db, db', led, txn);
    forall t | t in db'.pending ensures EchoOf(db', led', t, Sending) {
      OtherEchoStays(db, db', led, txn, t, Sending);
    }
    forall t | t in led'.failed ensures EchoOf(db', led', t, Failed) {
      if t != txn {
        OtherEchoStays(db, db', led, txn, t, Failed);
      }
    }
  }

  lemma FailLog(db: Db, db': Db, server: Server, origin: map<string, TxnKey>, led: Ledger, txn: string)
    requires EchoFails(db, db', led, txn) && IsLocal(led.queued[txn].echo) && LogInv(db, server, origin, led.resolved)
    ensures LogInv(db', server, origin, led.resolved) && RowsPersist(db, db')
  {
    hide StoreInv;
    SameEventsKeeps(db, db', server.events);
  }

  lemma FailRows(db: Db, db': Db, server: Server, origin: map<string, TxnKey>, led: Ledger, txn: string)
    requires EchoFails(db, db', led, txn) && IsLocal(led.queued[txn].echo)
             && OwnedOrConfirmed(db, led, led.queued[txn].echo)
    requires db.events[led.queued[txn].echo].local != Confirmed
    requires LogInv(db, server, origin, led.resolved) && CacheTrue(db)
    requires ResolvedShown(db, server, led.queued, led.resolved)
    ensures RowsPersist(db, db') && CacheTrue(db') && LogInv(db', server, origin, led.resolved)
    ensures ResolvedShown(db', server, led.queued, led.resolved)
  {
    hide StoreInv, RowsFromServer, SealsText;
    FailLog(db, db', server, origin, led, txn);
  }

  lemma FailStep(s: Sys)
    requires Inv(s) && SenderAt(s, Bad)
    ensures Inv(DoFlushFail(s))
  {
    hide Conserved, OwnersAgree, EchoesMatch, ServerInv, AllQueued, StageInv, StoreInv, RowsFromServer;
    hide ResolvedShown, CacheTrue, PassesStand, OpenedKept, PathDone, LoopsDone, PathLogged, LoopsLogged,
        RepliesGenuine;
    var s' := DoFlushFail(s);
    var txn := s.sender.todo[0].txn;
    SentIsPending(s);
    FailEffect(s.db, s.ledger, txn);
    FailConserves(s.db, s'.db, s.ledger, txn);
    FailEchoes(s.db, s'.db, s.ledger, txn);
    RestQueued(s.db, s'.db, s.user, s.server, s.sender.todo);
    FailRows(s.db, s'.db, s.server, s.origin, s.ledger, txn);
    StoreChange(s, s'.db);
  }

  // --- The server --------------------------------------------------------------------------------

  lemma UniverseGrows(db: Db, u: Universe, id: string, ev: Event)
    requires StoreInv(db, u) && id !in u && id !in db.events && ev.eventId == id && Agrees(NewRow(ev))
    ensures StoreInv(db, u[id := ev])
  {
  }

  lemma UnknownIdNotLogged(s: Sys, id: string)
    requires Inv(s) && id !in s.server.events && !IsLocal(id)
    ensures id !in s.db.events && id !in s.origin
  {
  }

  /** A new event changes nothing about the old ones. */
  lemma ServerGrows(s: Sys, id: string, ev: Event, dedup: map<TxnKey, string>, origin: map<string, TxnKey>)
    requires Inv(s) && id !in s.server.events && !IsLocal(id) && ev.eventId == id && Agrees(NewRow(ev))
    requires forall k | k in s.server.dedup :: k in dedup && dedup[k] == s.server.dedup[k]
    requires forall e | e in s.origin :: e in origin && origin[e] == s.origin[e]
    ensures var server' := Server(s.server.events[id := ev], dedup);
            && LogInv(s.db, server', origin, s.ledger.resolved)
            && ResolvedShown(s.db, server', s.ledger.queued, s.ledger.resolved)
            && RepliesGenuine(server', s.loops)
            && SenderInv(s.user, s.db, server', s.sender)
  {
    hide QueueInv, Agrees, AllQueued, CacheTrue, PassesStand, OpenedKept, AllLogged, AllAcked, StoreInv,
        NetFaithful, OriginsFaithful;
    UnknownIdNotLogged(s, id);
    UniverseGrows(s.db, s.server.events, id, ev);
    var server' := Server(s.server.events[id := ev], dedup);
    forall p | p in s.loops && s.loops[p].Folding? ensures FromServer(server', Batch(s.loops[p].resp.rooms)) {
      assert FromServer(s.server, Batch(s.loops[p].resp.rooms));
    }
  }

  lemma TakenEvent(user: string, server: Server, net: set<Attempt>, queued: map<string, Pending>, origin: map<string,
      TxnKey>, a: Attempt, id: string, ts: int, depth: int)
    requires ServerInv(user, server, net, queued, origin) && a in net
    ensures var ev := EventFor(user, a, id, ts, depth);
            ev.eventId == id && Agrees(NewRow(ev)) && FaithfulEvent(user, queued, TxnKey(a.room, a.txn), ev)
  {
    assert FaithfulAttempt(user, queued, a);
  }

  lemma PublishServer(user: string, server: Server, net: set<Attempt>, queued: map<string, Pending>,
      origin: map<string, TxnKey>, ev: Event)
    requires ServerInv(user, server, net, queued, origin)
    requires ev.eventId !in server.events && !IsLocal(ev.eventId) && Agrees(NewRow(ev))
    ensures ServerInv(user, server.(events := server.events[ev.eventId := ev]), net, queued, origin)
  {
  }

  lemma PublishStep(s: Sys, ev: Event)
    requires Inv(s) && ev.eventId !in s.server.events && !IsLocal(ev.eventId) && Agrees(NewRow(ev))
    ensures Inv(DoServerPublish(s, ev))
  {
    PublishServer(s.user, s.server, s.net, s.ledger.queued, s.origin, ev);
    ServerGrows(s, ev.eventId, ev, s.server.dedup, s.origin);
  }

  lemma TakeServer(user: string, server: Server, net: set<Attempt>, queued: map<string, Pending>, origin: map<string,
      TxnKey>, key: TxnKey, ev: Event)
    requires ServerInv(user, server, net, queued, origin)
    requires ev.eventId !in server.events && !IsLocal(ev.eventId) && Agrees(NewRow(ev)) && key !in server.dedup
    requires FaithfulEvent(user, queued, key, ev)
    ensures ServerInv(user, Server(server.events[ev.eventId := ev], server.dedup[key := ev.eventId]), net, queued,
             origin[ev.eventId := key])
  {
  }

  lemma TakeStep(s: Sys, a: Attempt, id: string, ts: int, depth: int)
    requires Inv(s) && a in s.net && id !in s.server.events && !IsLocal(id)
    ensures Inv(DoServerTake(s, a, id, ts, depth))
  {
    hide Conserved, OwnersAgree, EchoesMatch, ServerInv, AllQueued, StageInv, StoreInv, RowsFromServer;
    hide ResolvedShown, CacheTrue, PassesStand, OpenedKept, PathDone, LoopsDone, PathLogged, LoopsLogged,
        RepliesGenuine;
    var key := TxnKey(a.room, a.txn);
    if key !in s.server.dedup {
      var ev := EventFor(s.user, a, id, ts, depth);
      TakenEvent(s.user, s.server, s.net, s.ledger.queued, s.origin, a, id, ts, depth);
      UnknownIdNotLogged(s, id);
      TakeServer(s.user, s.server, s.net, s.ledger.queued, s.origin, key, ev);
      ServerGrows(s, id, ev, s.server.dedup[key := id], s.origin[id := key]);
    }
  }

  // --- Batches -------------------------------------------------------------------------------------

  /** A batch of server events keeps everything about the store. */
  lemma BatchKeeps(s: Sys, ws: seq<Wire>)
    requires Inv(s) && FromServer(s.server, ws)
    ensures var db' := ApplyEvents(s.db, ws).0;
            && RowsPersist(s.db, db') && db'.pending == s.db.pending && db'.token == s.db.token
            && QueueInv(db', s.ledger)
            && LogInv(db', s.server, s.origin, s.ledger.resolved)
            && ResolvedShown(db', s.server, s.ledger.queued, s.ledger.resolved)
            && CacheTrue(db')
            && SenderInv(s.user, db', s.server, s.sender)
  {
    hide OwnersAgree, NoLocalIds, StageInv, AllQueued, PassesStand, OpenedKept, PathDone, LoopsDone, PathLogged,
        LoopsLogged, RepliesGenuine, ApplyEvents;
    hide EchoesMatch, CacheTrue, ResolvedShown, RowsFromServer, SealsText;
    BatchApplies(s.db, s.server, ws);
    var db' := ApplyEvents(s.db, ws).0;
    BatchKeepsEchoes(s.db, db', s.server, s.ledger);
    BatchKeepsRows(s.db, db', s.server, s.origin, s.ledger);
    SamePending(s.user, s.db, db', s.server, s.sender);
  }

  lemma BatchKeepsEchoes(db: Db, db': Db, server: Server, led: Ledger)
    requires QueueInv(db, led) && NoLocalIds(server) && BatchEffect(server, db, db')
    ensures QueueInv(db', led)
  {
    forall t | t in db.pending ensures EchoOf(db', led, t, Sending) {
      assert EchoOf(db, led, t, Sending);
    }
    forall t | t in led.failed ensures EchoOf(db', led, t, Failed) {
      assert EchoOf(db, led, t, Failed);
    }
    forall id | id in db'.events ensures OwnedOrConfirmed(db', led, id) {
      assert OwnedOrConfirmed(db, led, id);
    }
  }

  lemma BatchKeepsRows(db: Db, db': Db, server: Server, origin: map<string, TxnKey>, led: Ledger)
    requires RowsFromServer(db, server, origin, led.resolved) && ResolvedShown(db, server, led.queued, led.resolved)
    requires CacheTrue(db) && BatchEffect(server, db, db')
    ensures RowsPersist(db, db') && RowsFromServer(db', server, origin, led.resolved)
    ensures ResolvedShown(db', server, led.queued, led.resolved) && CacheTrue(db')
  {
  }

  lemma BatchLogged(s: Sys, resp: Response)
    requires Inv(s) && FromServer(s.server, Batch(resp.rooms))
    ensures var (db', r) := ApplyEvents(s.db, Batch(resp.rooms));
            r.Ok? ==> EventsLogged(db', resp)
  {
    ParsedFromServer(s.server, Batch(resp.rooms));
    var r := ParseAll(Batch(resp.rooms));
    if r.Ok? {
      Logged(s.db, r.value);
    }
  }

  lemma BackfillStep(s: Sys, batch: seq<Wire>)
    requires Inv(s) && FromServer(s.server, batch)
    ensures Inv(s.(db := ApplyEvents(s.db, batch).0))
  {
    BatchKeeps(s, batch);
    StoreChange(s, ApplyEvents(s.db, batch).0);
  }

  lemma FoldStep(s: Sys, p: nat)
    requires Inv(s) && p in s.loops && s.loops[p].Folding?
    ensures Inv(DoLoopFold(s, p))
  {
    var s' := DoLoopFold(s, p);
    var resp := s.loops[p].resp;
    BatchKeeps(s, Batch(resp.rooms));
    BatchLogged(s, resp);
    StoreChange(s, s'.db);
    assert LoopLogged(s'.db, s.loops[p]);
    if !s.lossy {
      assert LoopDone(s.engine.device, Waived(s), s.loops[p]);
    }
  }

  // --- The loop's other steps -------------------------------------------------------------------------

  /** A loop that starts, hears back, skips a to-device event or stops. */
  lemma LoopsMove(s: Sys, loops': map<nat, Loop>)
    requires Inv(s) && RepliesGenuine(s.server, loops')
    requires LoopsLogged(s.db, loops')
    requires !s.lossy ==> LoopsDone(s.engine.device, Waived(s), loops')
    ensures Inv(s.(loops := loops'))
  {
  }

  lemma BeginLoopStep(s: Sys, p: nat)
    requires Inv(s)
    ensures Inv(s.(loops := s.loops[p := Polling(s.path)]))
  {
    LoopsMove(s, s.loops[p := Polling(s.path)]);
  }

  lemma ReplyStep(s: Sys, p: nat, resp: Response)
    requires Inv(s) && p in s.loops && s.loops[p].Polling? && FromServer(s.server, Batch(resp.rooms))
    ensures Inv(s.(loops := s.loops[p := Folding(s.loops[p].path, resp)]))
  {
    assert LoopLogged(s.db, s.loops[p]);
    if !s.lossy {
      assert LoopDone(s.engine.device, Waived(s), s.loops[p]);
    }
    LoopsMove(s, s.loops[p := Folding(s.loops[p].path, resp)]);
  }

  lemma CheckStep(s: Sys, p: nat)
    requires Inv(s) && JoiningAt(s, p, false)
    ensures Inv(DoLoopCheck(s, p))
  {
    assert LoopLogged(s.db, s.loops[p]);
    if !s.lossy {
      assert LoopDone(s.engine.device, Waived(s), s.loops[p]);
    }
    LoopsMove(s, DoLoopCheck(s, p).loops);
  }

  lemma AskErrorStep(s: Sys, p: nat)
    requires Inv(s) && JoiningAt(s, p, false)
    ensures Inv(DoLoopAskError(s, p))
  {
    hide QueueInv, ServerInv, SenderInv, LogInv, ResolvedShown, CacheTrue, PassesStand, OpenedKept;
    var s' := DoLoopAskError(s, p);
    assert LoopLogged(s.db, s.loops[p]);
    if !s.lossy {
      PathGrows(s.engine.device, s.engine.device, Waived(s), Waived(s'), s.path);
      LoopsGrow(s.engine.device, s.engine.device, Waived(s), Waived(s'), s.loops);
      assert LoopDone(s.engine.device, Waived(s'), s.loops[p]);
      assert LoopDone(s.engine.device, Waived(s'), s'.loops[p]);
    }
  }

  lemma CancelLoopStep(s: Sys, p: nat)
    requires Inv(s)
    ensures Inv(s.(loops := s.loops - {p}))
  {
    LoopsMove(s, s.loops - {p});
  }

  lemma TokenMoves(db: Db, u: Universe, token: Option<string>)
    requires StoreInv(db, u)
    ensures StoreInv(db.(token := token), u) && RowsPersist(db, db.(token := token))
  {
    SameEventsKeeps(db, db.(token := token), u);
  }

  lemma TokenIsNotQueue(db: Db, token: Option<string>, user: string, server: Server, sender: Sender, led: Ledger,
      origin: map<string, TxnKey>)
    requires QueueInv(db, led) && SenderInv(user, db, server, sender)
             && RowsFromServer(db, server, origin, led.resolved)
    requires ResolvedShown(db, server, led.queued, led.resolved) && CacheTrue(db)
    ensures var db' := db.(token := token);
            && QueueInv(db', led) && SenderInv(user, db', server, sender)
                 && RowsFromServer(db', server, origin, led.resolved)
            && ResolvedShown(db', server, led.queued, led.resolved) && CacheTrue(db')
  {
    var db' := db.(token := token);
    forall t | t in led.queued ensures forall l :: EchoOf(db', led, t, l) == EchoOf(db, led, t, l) {
    }
    forall id | id in db'.events ensures OwnedOrConfirmed(db', led, id) {
      assert OwnedOrConfirmed(db, led, id);
    }
  }

  lemma SaveAcked(s: Sys, p: nat)
    requires Inv(s) && p in s.loops && s.loops[p].Joining? && s.loops[p].i == |ToDeviceOf(s.loops[p].resp)|
    ensures PathLogged(s.db, s.loops[p].path + [s.loops[p].resp])
    ensures !s.lossy ==> PathDone(s.engine.device, Waived(s), s.loops[p].path + [s.loops[p].resp])
  {
    assert LoopLogged(s.db, s.loops[p]);
    if !s.lossy {
      assert LoopDone(s.engine.device, Waived(s), s.loops[p]);
      assert WelcomesDone(s.engine.device, Waived(s), s.loops[p].resp, |ToDeviceOf(s.loops[p].resp)|);
    }
  }

  /** Removing a loop leaves the others as they were. */
  lemma CancelLoops(server: Server, db: Db, device: Device, waived: set<ToDevice>, loops: map<nat, Loop>, p: nat)
    ensures RepliesGenuine(server, loops) ==> RepliesGenuine(server, loops - {p})
    ensures LoopsLogged(db, loops) ==> LoopsLogged(db, loops - {p})
    ensures LoopsDone(device, waived, loops) ==> LoopsDone(device, waived, loops - {p})
  {
  }

  lemma SaveStep(s: Sys, p: nat)
    requires Inv(s) && p in s.loops && s.loops[p].Joining? && s.loops[p].i == |ToDeviceOf(s.loops[p].resp)|
    ensures Inv(DoLoopSave(s, p))
  {
    hide Conserved, OwnersAgree, EchoesMatch, ServerInv, AllQueued, StageInv, StoreInv, RowsFromServer;
    hide ResolvedShown, CacheTrue, PassesStand, OpenedKept, PathDone, LoopsDone, PathLogged, LoopsLogged,
        RepliesGenuine;
    var s' := DoLoopSave(s, p);
    SaveAcked(s, p);
    TokenMoves(s.db, s.server.events, s'.db.token);
    StoreChange(s, s'.db);
    PathPersists(s.db, s'.db, s'.path);
    TokenIsNotQueue(s.db, s'.db.token, s.user, s.server, s.sender, s.ledger, s.origin);
    CancelLoops(s.server, s'.db, s.engine.device, Waived(s), s.loops, p);
  }

  // --- Engine steps ------------------------------------------------------------------------------------

  /** The engine moved on: no group was lost from memory. */
  ghost predicate EngineMoves(e: Engine, e': Engine)
  {
    && e'.device.user == e.device.user
    && (e'.saved == e.saved || e'.saved == e'.device)
    && e.device.groups.Keys <= e'.device.groups.Keys
  }

  lemma EngineAcked(s: Sys, e': Engine, waived': set<ToDevice>)
    requires Inv(s) && EngineMoves(s.engine, e') && Waived(s) <= waived'
    ensures UserInv(s.user, e')
    ensures !s.lossy ==> AllAcked(e', waived', s.path, s.loops)
  {
    if !s.lossy {
      PathGrows(s.engine.device, e'.device, Waived(s), waived', s.path);
      LoopsGrow(s.engine.device, e'.device, Waived(s), waived', s.loops);
    }
  }

  lemma EngineStep(s: Sys, e': Engine)
    requires Inv(s) && EngineMoves(s.engine, e')
    ensures Inv(DoEngine(s, e'))
  {
    EngineAcked(s, e', Waived(s));
  }

  lemma SealStage(user: string, db: Db, server: Server, sender: Sender, e: Engine, io: Io)
    requires SenderInv(user, db, server, sender) && sender.At? && UserInv(user, e)
    ensures var q := sender.todo[0];
            var c := Encrypt(e, q.room, q.body, io).1;
            c.Some? ==> StageInv(user, server, q, Send(Attempt(q.txn, q.room, Encrypted, SealedContent(c.value))))
  {
  }

  lemma SealStep(s: Sys, io: Io)
    requires Inv(s) && SenderAt(s, Seal)
    ensures Inv(DoFlushSeal(s, io))
  {
    var s' := DoFlushSeal(s, io);
    SealStage(s.user, s.db, s.server, s.sender, s.engine, io);
    EngineStep(s, s'.engine);
    SenderMoves(DoEngine(s, s'.engine), s'.sender, s.net);
  }

  lemma JoinOutcome(e: Engine, ev: ToDevice, accept: bool, put: bool, waived: set<ToDevice>)
    requires ev.welcome.Some?
    requires !JoinFromWelcome(e, ev.welcome.value, accept, put).1 ==> ev in waived
    ensures WelcomeDone(JoinFromWelcome(e, ev.welcome.value, accept, put).0.device, waived, ev)
  {
  }

  lemma JoinStep(s: Sys, p: nat, accept: bool, put: bool)
    requires Inv(s) && JoiningAt(s, p, true)
    ensures Inv(DoLoopJoin(s, p, accept, put))
  {
    hide QueueInv, ServerInv, SenderInv, LogInv, ResolvedShown, CacheTrue, PassesStand, OpenedKept,
        EventsLogged, PathDone, PathLogged;
    var s' := DoLoopJoin(s, p, accept, put);
    var l := s.loops[p];
    var ev := ToDeviceOf(l.resp)[l.i];
    if ev.welcome.Some? {
      EngineAcked(s, s'.engine, Waived(s'));
    }
    assert LoopLogged(s.db, l);
    if !s'.lossy {
      assert LoopDone(s'.engine.device, Waived(s'), l);
      if ev.welcome.Some? {
        JoinOutcome(s.engine, ev, accept, put, Waived(s'));
      }
      assert LoopDone(s'.engine.device, Waived(s'), s'.loops[p]);
      assert LoopsDone(s'.engine.device, Waived(s'), s'.loops);
    }
  }

  // --- The inbound pass -----------------------------------------------------------------------------------

  lemma EchoNotInStream(db: Db, led: Ledger, id: string)
    requires QueueInv(db, led) && id in db.events && Unhandled(db.events[id])
    ensures !IsLocal(id)
  {
  }

  lemma ItemInStream(db: Db, led: Ledger, i: nat)
    requires QueueInv(db, led) && RowsAgree(db) && i < |PendingMls(db)|
    ensures ItemStands(db, PendingMls(db)[i])
  {
    hide Conserved, OwnersAgree, EchoesMatch, Ordered, Agrees, IsLocal;
    var rank := Ordered(MlsRanks(db))[i];
    assert rank in Ordered(MlsRanks(db)) && rank in MlsRanks(db);
    EchoNotInStream(db, led, rank.id);
  }

  lemma StreamStands(db: Db, led: Ledger)
    requires QueueInv(db, led) && RowsAgree(db)
    ensures forall i | 0 <= i < |PendingMls(db)| :: ItemStands(db, PendingMls(db)[i])
  {
    hide QueueInv;
    forall i | 0 <= i < |PendingMls(db)| ensures ItemStands(db, PendingMls(db)[i]) {
      ItemInStream(db, led, i);
    }
  }

  /** Passes move on; what is in hand stays in hand. */
  lemma PassesMove(s: Sys, passes': map<nat, Pass>)
    requires Inv(s) && PassesStand(s.db, s.user, passes')
    requires forall id | id in InHand(s.passes) :: id in InHand(passes')
    ensures Inv(s.(passes := passes'))
  {
  }

  lemma OnePassMoves(db: Db, user: string, passes: map<nat, Pass>, p: nat, pass: Pass)
    requires PassesStand(db, user, passes) && PassStands(db, user, pass)
    ensures PassesStand(db, user, passes[p := pass])
  {
  }

  lemma OnePass(db: Db, user: string, passes: map<nat, Pass>, p: nat)
    requires PassesStand(db, user, passes) && p in passes
    ensures PassStands(db, user, passes[p]) && PassesStand(db, user, passes - {p})
  {
  }

  lemma BeginPassStep(s: Sys, p: nat)
    requires Inv(s) && p !in s.passes
    ensures Inv(DoPassBegin(s, p))
  {
    hide Conserved, OwnersAgree, EchoesMatch, ServerInv, AllQueued, StageInv, RowsFromServer;
    hide ResolvedShown, CacheTrue, PassesStand, OpenedKept, PathDone, LoopsDone, PathLogged, LoopsLogged,
        RepliesGenuine;
    StreamStands(s.db, s.ledger);
    var passes' := DoPassBegin(s, p).passes;
    if PendingMls(s.db) != [] {
      OnePassMoves(s.db, s.user, s.passes, p, Pass(PendingMls(s.db), Check));
    }
    HandsKept(s.passes, passes', p);
    PassesMove(s, passes');
  }

  lemma HandsKept(passes: map<nat, Pass>, passes': map<nat, Pass>, p: nat)
    requires forall q | q in passes && q != p :: q in passes' && passes'[q] == passes[q]
    requires p in passes ==> !passes[p].stage.Write?
    ensures forall id | id in InHand(passes) :: id in InHand(passes')
  {
  }

  lemma TailStands(db: Db, user: string, pass: Pass)
    requires PassStands(db, user, pass) && |pass.todo| > 1
    ensures PassStands(db, user, Pass(pass.todo[1..], Check))
  {
    assert forall i | 0 <= i < |pass.todo[1..]| :: pass.todo[1..][i] == pass.todo[i + 1];
  }

  /** A pass moving on without a plaintext in hand. */
  lemma PassMoves(s: Sys, p: nat, s': Sys)
    requires Inv(s) && p in s.passes && s.passes[p].todo != [] && !s.passes[p].stage.Write?
    requires s' == NextItem(s, p) || s' == AtStage(s, p, Own) || s' == AtStage(s, p, Work)
    ensures Inv(s')
  {
    assert PassStands(s.db, s.user, s.passes[p]);
    if |s.passes[p].todo| > 1 {
      TailStands(s.db, s.user, s.passes[p]);
    }
    HandsKept(s.passes, s'.passes, p);
    PassesMove(s, s'.passes);
  }

  lemma WorkOutcome(user: string, db: Db, e: Engine, pass: Pass, io: Io)
    requires PassStands(db, user, pass) && UserInv(user, e)
    ensures pass.todo[0].MessageItem? ==>
              && WriteTrue(user, pass.todo[0], Decrypt(e, pass.todo[0].room, pass.todo[0].cipher, io).1)
              && EngineMoves(e, Decrypt(e, pass.todo[0].room, pass.todo[0].cipher, io).0)
    ensures pass.todo[0].CommitItem? ==> EngineMoves(e, ProcessCommit(e, pass.todo[0].room, pass.todo[0].commit, io).0)
  {
  }

  lemma OpenedInHand(db: Db, passes: map<nat, Pass>, unsealed: set<string>, lost: set<string>, p: nat,
      text: Option<string>)
    requires OpenedKept(db, passes, unsealed, lost) && p in passes && passes[p].todo != [] && !passes[p].stage.Write?
    ensures OpenedKept(db, passes[p := passes[p].(stage := Write(text))], if text.Some?
             then unsealed + {passes[p].todo[0].id} else unsealed, lost)
  {
    var passes' := passes[p := passes[p].(stage := Write(text))];
    HandsKept(passes, passes', p);
    if text.Some? {
      assert passes'[p].todo[0].id in InHand(passes');
    }
  }

  lemma WorkStep(s: Sys, p: nat, io: Io)
    requires Inv(s) && p in s.passes && s.passes[p].todo != [] && s.passes[p].stage == Work
    ensures Inv(DoWork(s, p, io))
  {
    hide Conserved, OwnersAgree, EchoesMatch, ServerInv, AllQueued, StageInv, StoreInv, RowsFromServer;
    hide ResolvedShown, CacheTrue, PassesStand, OpenedKept, PathDone, LoopsDone, PathLogged, LoopsLogged,
        RepliesGenuine;
    var s' := DoWork(s, p, io);
    var pass := s.passes[p];
    OnePass(s.db, s.user, s.passes, p);
    WorkOutcome(s.user, s.db, s.engine, pass, io);
    assert EngineMoves(s.engine, s'.engine);
    EngineAcked(s, s'.engine, Waived(s));
    OpenedInHand(s.db, s.passes, s.unsealed, s.lost, p, s'.passes[p].stage.text);
    OnePassMoves(s.db, s.user, s.passes, p, s'.passes[p]);
  }

  lemma WriteRows(s: Sys, p: nat)
    requires Inv(s) && p in s.passes && s.passes[p].todo != [] && s.passes[p].stage.Write?
    ensures var db', id := DoWrite(s, p).db, s.passes[p].todo[0].id;
            && !IsLocal(id) && id in s.db.events
            && db' == s.db.(events := db'.events) && db'.events.Keys == s.db.events.Keys
            && (forall e | e in s.db.events && e != id :: db'.events[e] == s.db.events[e])
            && db'.events[id] == s.db.events[id].(decrypted := db'.events[id].decrypted, state := db'.events[id].state)
            && RowsPersist(s.db, db') && CacheTrue(db')
            && (s.passes[p].stage.text.Some? ==> db'.events[id].decrypted.Some?)
  {
    hide QueueInv, ServerInv, SenderInv, LogInv, ResolvedShown, OpenedKept, AllAcked, RepliesGenuine;
    assert PassStands(s.db, s.user, s.passes[p]);
    assert ItemStands(s.db, s.passes[p].todo[0]);
  }

  lemma WriteOpened(db: Db, db': Db, passes: map<nat, Pass>, passes': map<nat, Pass>, unsealed: set<string>,
      lost: set<string>, p: nat)
    requires OpenedKept(db, passes, unsealed, lost) && RowsPersist(db, db')
    requires p in passes && passes[p].todo != [] && passes[p].stage.Write?
    requires forall q | q in passes && q != p :: q in passes' && passes'[q] == passes[q]
    requires var id := passes[p].todo[0].id;
             passes[p].stage.text.Some? ==> !IsLocal(id) && id in db'.events && db'.events[id].decrypted.Some?
    ensures OpenedKept(db', passes', unsealed, lost)
  {
    forall id | id in InHand(passes) && id != passes[p].todo[0].id ensures id in InHand(passes') {
      var q :| q in passes && passes[q].todo != [] && passes[q].stage.Write? && passes[q].stage.text.Some?
          && passes[q].todo[0].id == id;
      assert passes'[q] == passes[q];
    }
    forall id | id in unsealed
      ensures (id in db'.events && db'.events[id].decrypted.Some? && !IsLocal(id)) || id in InHand(passes')
               || id in lost
    {
      if id == passes[p].todo[0].id && id in InHand(passes) && passes[p].stage.text.None? {
        var q :| q in passes && passes[q].todo != [] && passes[q].stage.Write? && passes[q].stage.text.Some?
            && passes[q].todo[0].id == id;
        assert passes'[q] == passes[q];
      }
    }
  }

  lemma WriteQueue(db: Db, db': Db, led: Ledger, id: string)
    requires QueueInv(db, led) && !IsLocal(id) && id in db.events
    requires db'.pending == db.pending && db'.events.Keys == db.events.Keys
    requires forall e | e in db.events && e != id :: db'.events[e] == db.events[e]
    requires db'.events[id].local == db.events[id].local
    ensures QueueInv(db', led)
  {
    forall t, l | t in led.queued && EchoOf(db, led, t, l) && (t in db.pending || t in led.failed)
      ensures EchoOf(db', led, t, l)
    {
      assert IsLocal(led.queued[t].echo);
    }
    forall e | e in db'.events ensures OwnedOrConfirmed(db', led, e) {
      assert OwnedOrConfirmed(db, led, e);
    }
  }

  lemma WriteShown(db: Db, db': Db, server: Server, origin: map<string, TxnKey>, queued: map<string, Pending>,
      resolved: map<string, string>, id: string)
    requires ResolvedShown(db, server, queued, resolved) && id in db.events
    requires db'.events.Keys == db.events.Keys
    requires forall e | e in db.events && e != id :: db'.events[e] == db.events[e]
    requires db'.events[id].local == db.events[id].local && db'.events[id].ev == db.events[id].ev
    requires db.events[id].decrypted.Some? ==> db'.events[id].decrypted == db.events[id].decrypted
    requires RowsFromServer(db, server, origin, resolved)
    ensures ResolvedShown(db', server, queued, resolved) && RowsFromServer(db', server, origin, resolved)
  {
  }

  lemma SamePending(user: string, db: Db, db': Db, server: Server, sender: Sender)
    requires SenderInv(user, db, server, sender) && db'.pending == db.pending
    ensures SenderInv(user, db', server, sender)
  {
  }

  lemma WriteStep(s: Sys, p: nat)
    requires Inv(s) && p in s.passes && s.passes[p].todo != [] && s.passes[p].stage.Write?
    ensures Inv(DoWrite(s, p))
  {
    hide Conserved, OwnersAgree, EchoesMatch, ServerInv, AllQueued, StageInv, StoreInv, RowsFromServer;
    hide ResolvedShown, CacheTrue, PassesStand, OpenedKept, PathDone, LoopsDone, PathLogged, LoopsLogged,
        RepliesGenuine;
    var s' := DoWrite(s, p);
    var id := s.passes[p].todo[0].id;
    WriteRows(s, p);
    WriteOpened(s.db, s'.db, s.passes, s'.passes, s.unsealed, s.lost, p);
    StoreChange(s, s'.db);
    SameEventsKeeps(s.db, s'.db, s.server.events);
    WriteQueue(s.db, s'.db, s.ledger, id);
    WriteShown(s.db, s'.db, s.server, s.origin, s.ledger.queued, s.ledger.resolved, id);
    SamePending(s.user, s.db, s'.db, s.server, s.sender);
    OnePass(s'.db, s.user, s.passes, p);
    if |s.passes[p].todo| > 1 {
      TailStands(s'.db, s.user, s.passes[p]);
      OnePassMoves(s'.db, s.user, s.passes, p, s'.passes[p]);
    }
  }

  lemma PassStepKeeps(s: Sys, p: nat, io: Io)
    requires Inv(s) && p in s.passes && s.passes[p].todo != []
    ensures Inv(DoPassStep(s, p, io))
  {
    hide Inv, DoWork, DoWrite, HasGroup, HasPendingSend, NextItem, AtStage;
    match s.passes[p].stage
    case Check => PassMoves(s, p, DoPassStep(s, p, io));
    case Own => PassMoves(s, p, DoPassStep(s, p, io));
    case Work => WorkStep(s, p, io);
    case Write(_) => WriteStep(s, p);
  }

  lemma PassErrorStep(s: Sys, p: nat)
    requires Inv(s) && p in s.passes && s.passes[p].stage == Check
    ensures Inv(s.(passes := s.passes - {p}))
  {
    OnePass(s.db, s.user, s.passes, p);
    HandsKept(s.passes, s.passes - {p}, p);
    PassesMove(s, s.passes - {p});
  }

  lemma CrashStep(s: Sys)
    requires Inv(s)
    ensures Inv(DoCrash(s))
  {
  }

  lemma GroupStep(s: Sys, a: Action)
    requires Inv(s) && Enabled(s, a) && (a.CreateRoomGroup? || a.Invite?)
    ensures Inv(Do(s, a))
  {
    hide Inv, FromServer, JoiningAt;
    if a.CreateRoomGroup? {
      EngineStep(s, CreateGroup(s.engine, a.room, a.put).0);
    } else {
      EngineStep(s, AddMember(s.engine, a.room, a.invitee, a.accept, a.put).0);
    }
  }

  predicate OnlySends(a: Action)
  {
    a.FlushBegin? || a.FlushChoose? || a.FlushEngineError? || a.FlushMark? || a.FlushTransmit? || a.FlushAck?
    || a.FlushTransient? || a.FlushReject? || a.FlushCancel?
  }

  lemma DecidingStep(s: Sys, a: Action)
    requires Inv(s) && Enabled(s, a) && (a.FlushBegin? || a.FlushChoose? || a.FlushMark? || a.FlushTransmit?)
    ensures Inv(Do(s, a))
  {
    hide Inv, PendingSends, HasGroup, IsRoomEncrypted, DoFlushBegin, DoFlushMark, DoFlushTransmit;
    match a
    case FlushBegin => BeginFlushStep(s);
    case FlushChoose => StageStep(s, if HasGroup(s.engine, s.sender.todo[0].room) then Seal else Mark);
    case FlushMark => MarkStep(s);
    case FlushTransmit => TransmitStep(s);
  }

  /** The step ends the pass, or takes the send to the next stage. */
  lemma AnswerIs(s: Sys, a: Action)
    requires Enabled(s, a)
    requires a.FlushEngineError? || a.FlushAck? || a.FlushReject? || a.FlushTransient? || a.FlushCancel?
    ensures s.sender.At?
    ensures if a.FlushTransient? || a.FlushCancel? then Do(s, a) == s.(sender := Off)
            else if !a.FlushAck? then Do(s, a) == DoSend(s, Bad)
            else (s.sender.stage.Wait?
                  && TxnKey(s.sender.stage.attempt.room, s.sender.stage.attempt.txn) in s.server.dedup
                  && Do(s, a) == DoSend(s,
                       Got(s.server.dedup[TxnKey(s.sender.stage.attempt.room, s.sender.stage.attempt.txn)])))
  {
  }

  lemma AnsweringStep(s: Sys, a: Action)
    requires Inv(s) && Enabled(s, a)
    requires a.FlushEngineError? || a.FlushAck? || a.FlushReject? || a.FlushTransient? || a.FlushCancel?
    ensures Inv(Do(s, a))
  {
    hide Do, Enabled, DoSend, Inv;
    AnswerIs(s, a);
    SentIsPending(s);
    SenderOff(s);
    if a.FlushAck? {
      var at := s.sender.stage.attempt;
      StageStep(s, Got(s.server.dedup[TxnKey(at.room, at.txn)]));
    } else if !a.FlushTransient? && !a.FlushCancel? {
      StageStep(s, Bad);
    }
  }

  lemma SenderOff(s: Sys)
    requires Inv(s)
    ensures Inv(s.(sender := Off))
  {
    SenderMoves(s, Off, s.net);
  }

  lemma SendingStep(s: Sys, a: Action)
    requires Inv(s) && Enabled(s, a) && OnlySends(a)
    ensures Inv(Do(s, a))
  {
    hide Inv, Do, Enabled;
    if a.FlushBegin? || a.FlushChoose? || a.FlushMark? || a.FlushTransmit? {
      DecidingStep(s, a);
    } else {
      AnsweringStep(s, a);
    }
  }

  lemma PollKeeps(s: Sys, a: Action)
    requires Inv(s) && Enabled(s, a)
    requires a.LoopBegin? || a.LoopReply? || a.LoopFold? || a.LoopCancel?
    ensures Inv(Do(s, a))
  {
    hide Inv, DoLoopFold, FromServer;
    match a
    case LoopBegin(p) => BeginLoopStep(s, p);
    case LoopReply(p, resp) => ReplyStep(s, p, resp);
    case LoopFold(p) => FoldStep(s, p);
    case LoopCancel(p) => CancelLoopStep(s, p);
  }

  lemma JoinKeeps(s: Sys, a: Action)
    requires Inv(s) && Enabled(s, a)
    requires a.LoopCheck? || a.LoopAskError? || a.LoopJoin? || a.LoopSave?
    ensures Inv(Do(s, a))
  {
    hide Inv, DoLoopCheck, DoLoopAskError, DoLoopJoin, DoLoopSave, JoiningAt, AsksFirst, ToDeviceOf;
    match a
    case LoopCheck(p) => CheckStep(s, p);
    case LoopAskError(p) => AskErrorStep(s, p);
    case LoopJoin(p, accept, put) => JoinStep(s, p, accept, put);
    case LoopSave(p) => SaveStep(s, p);
  }

  lemma LoopKeeps(s: Sys, a: Action)
    requires Inv(s) && Enabled(s, a) && OnlyLoops(a)
    ensures Inv(Do(s, a))
  {
    hide Inv, Do, Enabled;
    if a.LoopBegin? || a.LoopReply? || a.LoopFold? || a.LoopCancel? {
      PollKeeps(s, a);
    } else {
      JoinKeeps(s, a);
    }
  }

  predicate OnlyLoops(a: Action)
  {
    a.LoopBegin? || a.LoopReply? || a.LoopFold? || a.LoopCheck? || a.LoopAskError? || a.LoopJoin? || a.LoopSave?
      || a.LoopCancel?
  }

  predicate OnlyQueues(a: Action)
  {
    a.Queue? || a.FlushSeal? || a.FlushResolve? || a.FlushFail?
  }

  lemma QueueingStep(s: Sys, a: Action)
    requires Inv(s) && Enabled(s, a) && OnlyQueues(a)
    ensures Inv(Do(s, a))
  {
    hide Inv;
    match a
    case Queue(txn, echo, room, body, ts) => QueueStep(s, txn, echo, room, body, ts);
    case FlushSeal(io) => SealStep(s, io);
    case FlushResolve => ResolveStep(s);
    case FlushFail => FailStep(s);
  }

  lemma OtherStep(s: Sys, a: Action)
    requires Inv(s) && Enabled(s, a) && !OnlySends(a) && !OnlyLoops(a) && !OnlyQueues(a)
    ensures Inv(Do(s, a))
  {
    hide Inv;
    match a
    case ServerTake(at, id, ts, depth) => TakeStep(s, at, id, ts, depth);
    case ServerPublish(ev) => PublishStep(s, ev);
    case Backfill(batch) => BackfillStep(s, batch);
    case PassBegin(p) => BeginPassStep(s, p);
    case PassStep(p, io) => PassStepKeeps(s, p, io);
    case PassError(p) => PassErrorStep(s, p);
    case CreateRoomGroup(_, _) => GroupStep(s, a);
    case Invite(_, _, _, _) => GroupStep(s, a);
    case Crash => CrashStep(s);
  }

  lemma StepKeeps(s: Sys, a: Action)
    requires Inv(s) && Enabled(s, a)
    ensures Inv(Do(s, a))
  {
    hide Inv, Do, Enabled;
    if OnlySends(a) {
      SendingStep(s, a);
    } else if OnlyLoops(a) {
      LoopKeeps(s, a);
    } else if OnlyQueues(a) {
      QueueingStep(s, a);
    } else {
      OtherStep(s, a);
    }
  }
}
