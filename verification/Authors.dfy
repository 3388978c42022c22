/** Whose our rows are: every echo, and every row an acknowledged send ends as, is of
    the typing user and stands in the room it was typed in. */
module Authors {
  import opened Base
  import opened Mls
  import opened Events
  import opened T = Tables
  import opened CurrentState
  import opened Inbound
  import opened Flush
  import opened Sync
  import opened Machine
  import opened Invariants
  import Steps
  import Frames

  predicate OfSend(ev: Event, user: string, p: Pending)
  {
    ev.sender == user && ev.roomId == p.room && ev.stateKey.None?
  }

  /** Each provisional row carries the user, the room and the time of its send. */
  ghost predicate EchoesOurs(db: Db, user: string, led: Ledger)
  {
    forall e | e in db.events && IsLocal(e) && e in led.owner && led.owner[e] in led.queued ::
      OfSend(db.events[e].ev, user, led.queued[led.owner[e]])
      && db.events[e].ev.ts == led.queued[led.owner[e]].created
  }

  ghost predicate SentOurs(db: Db, user: string, led: Ledger)
  {
    forall t | t in led.resolved && t in led.queued && led.resolved[t] in db.events ::
      OfSend(db.events[led.resolved[t]].ev, user, led.queued[t])
  }

  ghost predicate Authored(s: Sys)
  {
    EchoesOurs(s.db, s.user, s.ledger) && SentOurs(s.db, s.user, s.ledger)
  }

  lemma StartsAuthored(user: string)
    ensures Authored(Init(user))
  {
  }

  /** Rows keep their events, and no provisional one is added. */
  ghost predicate EventsStay(db: Db, db': Db)
  {
    && (forall e | e in db.events :: e in db'.events && db'.events[e].ev == db.events[e].ev)
    && (forall e | e in db'.events && e !in db.events :: !IsLocal(e))
  }

  lemma StayingKeeps(s: Sys, db': Db)
    requires Inv(s) && Authored(s) && EventsStay(s.db, db')
    ensures EchoesOurs(db', s.user, s.ledger) && SentOurs(db', s.user, s.ledger)
  {
    hide QueueInv, ServerInv, SenderInv, LogInv, CacheTrue, PassesStand, OpenedKept, AllLogged, AllAcked,
        RepliesGenuine, OfSend, IsLocal, ShowsTyped;
    assert ResolvedShown(s.db, s.server, s.ledger.queued, s.ledger.resolved);
  }

  lemma BatchStays(s: Sys, ws: seq<Wire>)
    requires Inv(s) && FromServer(s.server, ws)
    ensures EventsStay(s.db, ApplyEvents(s.db, ws).0)
  {
    hide QueueInv, SenderInv, CacheTrue, PassesStand, OpenedKept, AllLogged, AllAcked, RepliesGenuine, ResolvedShown,
        DedupInv, OriginsFaithful, NetFaithful, WellFormed, ApplyEvents, FromServer;
    BatchApplies(s.db, s.server, ws);
  }

  lemma PassStays(s: Sys, p: nat, io: Io)
    requires Inv(s) && p in s.passes && s.passes[p].todo != []
    ensures EventsStay(s.db, DoPassStep(s, p, io).db)
  {
    hide Inv, HasPendingSend, DoWork, DoWrite;
    match s.passes[p].stage
    case Work => Frames.WorkFrame(s, p, io);
    case Write(_) => Steps.WriteRows(s, p);
    case _ =>
  }

  lemma QueueingKeeps(s: Sys, txn: string, echo: string, room: string, body: string, ts: int)
    requires Inv(s) && Authored(s) && txn !in s.ledger.queued && IsLocal(echo) && echo !in s.ledger.owner
    ensures Authored(DoQueue(s, txn, echo, room, body, ts))
  {
    hide ServerInv, SenderInv, CacheTrue, PassesStand, OpenedKept, AllLogged, AllAcked, RepliesGenuine, NextDepth,
        EchoesMatch, StoreInv, RowsFromServer;
    var s' := DoQueue(s, txn, echo, room, body, ts);
    assert s'.db.events[echo].ev.sender == s.user && s'.db.events[echo].ev.roomId == room
        && s'.db.events[echo].ev.ts == ts;
    forall t | t in s.ledger.resolved ensures s.ledger.resolved[t] != echo {
      ResolvedIsServers(s, t);
    }
  }

  lemma ResolvedIsServers(s: Sys, t: string)
    requires Inv(s) && t in s.ledger.resolved
    ensures !IsLocal(s.ledger.resolved[t]) && s.ledger.resolved[t] in s.db.events && t in s.ledger.queued
  {
    hide QueueInv, SenderInv, LogInv, CacheTrue, PassesStand, OpenedKept, AllLogged, AllAcked, RepliesGenuine,
        ShowsTyped;
    assert TxnKey(s.ledger.queued[t].room, t) in s.server.dedup;
  }

  /** The row the acknowledged send ends as: the server's event, or the echo. */
  lemma SettledRow(s: Sys, txn: string, id: string)
    requires Authored(s) && Steps.AckFacts(s.user, s.db, s.server, s.ledger, s.origin, txn, id)
    requires OwnersAgree(s.ledger)
    ensures var db' := ResolveSend(s.db, txn, id);
            id in db'.events && OfSend(db'.events[id].ev, s.user, s.ledger.queued[txn])
  {
    hide Faithful;
    ResolveEffect(s.db, txn, id);
    assert s.ledger.owner[s.ledger.queued[txn].echo] == txn;
  }

  lemma ResolvingKeeps(s: Sys)
    requires Inv(s) && Authored(s) && s.sender.At? && s.sender.todo != [] && s.sender.stage.Got?
    ensures Authored(DoFlushResolve(s))
  {
    hide Conserved, EchoesMatch, StoreInv, CacheTrue, PassesStand, OpenedKept, AllLogged, AllAcked, RepliesGenuine,
        Steps.AckFacts, OfSend, ResolveSend, ServerInv, RowsFromServer;
    var q, id := s.sender.todo[0], s.sender.stage.id;
    Steps.SentIsPending(s);
    Steps.AckHasFacts(s.user, s.db, s.server, s.net, s.ledger, s.origin, q, id);
    SettledRow(s, q.txn, id);
    AckedIsServers(s, q.txn, id);
    ResolvedRowsStay(s, q.txn, id);
    SettlingKeeps(s, ResolveSend(s.db, q.txn, id), q.txn, id);
  }

  lemma AckedIsServers(s: Sys, txn: string, id: string)
    requires Steps.AckFacts(s.user, s.db, s.server, s.ledger, s.origin, txn, id)
    ensures !IsLocal(id) && txn in s.db.pending && s.db.pending[txn].echo == s.ledger.queued[txn].echo
  {
  }

  /** Settling changes no row's event but the acknowledged one's. */
  lemma ResolvedRowsStay(s: Sys, txn: string, id: string)
    requires txn in s.db.pending && !IsLocal(id)
    ensures var db' := ResolveSend(s.db, txn, id);
            && (forall e | e in db'.events && e != id :: e in s.db.events && db'.events[e].ev == s.db.events[e].ev)
            && (id in s.db.events && id in db'.events ==> db'.events[id].ev == s.db.events[id].ev)
  {
    hide IsPromoted;
    ResolveEffect(s.db, txn, id);
  }

  lemma SettlingKeeps(s: Sys, db': Db, txn: string, id: string)
    requires Inv(s) && Authored(s) && txn in s.ledger.queued && !IsLocal(id)
    requires forall e | e in db'.events && e != id :: e in s.db.events && db'.events[e].ev == s.db.events[e].ev
    requires id in s.db.events && id in db'.events ==> db'.events[id].ev == s.db.events[id].ev
    requires id in db'.events && OfSend(db'.events[id].ev, s.user, s.ledger.queued[txn])
    ensures EchoesOurs(db', s.user, s.ledger)
    ensures SentOurs(db', s.user, s.ledger.(resolved := s.ledger.resolved[txn := id]))
  {
    hide OfSend, Inv, IsLocal;
    forall t | t in s.ledger.resolved ensures s.ledger.resolved[t] in s.db.events {
      ResolvedIsServers(s, t);
    }
  }

  lemma FailingKeeps(s: Sys)
    requires Inv(s) && Authored(s) && SenderAt(s, Bad)
    ensures Authored(DoFlushFail(s))
  {
    hide Inv, OfSend, IsLocal;
    forall t | t in s.ledger.resolved ensures s.ledger.resolved[t] in s.db.events {
      ResolvedIsServers(s, t);
    }
    var db' := FailSend(s.db, s.sender.todo[0].txn);
    assert forall e | e in db'.events :: e in s.db.events && db'.events[e].ev == s.db.events[e].ev;
  }

  lemma StoringKeeps(s: Sys, a: Action)
    requires Inv(s) && Enabled(s, a) && Authored(s) && Frames.TouchesStore(a) && !a.PassStep?
    ensures Authored(Do(s, a))
  {
    hide Inv, Authored, FromServer, Batch, ApplyEvents, DoQueue, DoFlushFail, DoFlushResolve;
    match a
    case Queue(txn, echo, room, body, ts) => QueueingKeeps(s, txn, echo, room, body, ts);
    case FlushResolve => ResolvingKeeps(s);
    case FlushFail => FailingKeeps(s);
    case Backfill(batch) =>
      BatchStays(s, batch);
      StayedKeeps(s, Do(s, a));
    case LoopFold(p) =>
      RepliesAreGenuine(s, p);
      BatchStays(s, Batch(s.loops[p].resp.rooms));
      StayedKeeps(s, Do(s, a));
  }

  lemma RepliesAreGenuine(s: Sys, p: nat)
    requires Inv(s) && p in s.loops && s.loops[p].Folding?
    ensures FromServer(s.server, Batch(s.loops[p].resp.rooms))
  {
    hide FromServer, Batch;
  }

  lemma StayedKeeps(s: Sys, s': Sys)
    requires Inv(s) && Authored(s) && EventsStay(s.db, s'.db) && s'.user == s.user && s'.ledger == s.ledger
    ensures Authored(s')
  {
    hide Inv, EventsStay;
    StayingKeeps(s, s'.db);
  }

  /** Every step keeps it. */
  lemma StepAuthored(s: Sys, a: Action)
    requires Inv(s) && Enabled(s, a) && Authored(s)
    ensures Authored(Do(s, a))
  {
    hide Inv, Do, Enabled;
    Frames.StepFrame(s, a);
    if a.PassStep? {
      Frames.PassStepIs(s, a.p, a.io);
      Frames.PassFrame(s, a.p, a.io);
      PassStays(s, a.p, a.io);
      StayedKeeps(s, Do(s, a));
    } else if Frames.TouchesStore(a) {
      StoringKeeps(s, a);
    }
  }
}
