/** The client: the loops of rooms.rs and sync.rs over a store and an engine.
    Network replies, keystore outcomes and engine verdicts are parameters. */
module Client {
  import opened Base
  import opened Mls
  import opened E2eeEngine
  import opened Events
  import opened T = Tables
  import opened Store
  import Inbound
  import Flush
  import Sync
  import Welcoming

  lemma Regroup<A>(a: seq<A>, x: A, b: seq<A>)
    ensures a + ([x] + b) == (a + [x]) + b
  {
  }

  class PigeonClient {
    const user: string
    const store: LocalStore
    const e2ee: E2ee?

    constructor (user: string, store: LocalStore, e2ee: E2ee?)
      ensures this.user == user && this.store == store && this.e2ee == e2ee
    {
      this.user, this.store, this.e2ee := user, store, e2ee;
    }

    ghost function Parts(): set<object>
    {
      if e2ee == null then {store} else {store, e2ee}
    }

    ghost function Db(): T.Db
      reads store
    {
      store.Contents()
    }

    /** A session without an engine never consults this. */
    ghost function Engine(): Mls.Engine
      reads if e2ee == null then {} else {e2ee}
    {
      if e2ee == null then Mls.Engine(Device("", map[]), Device("", map[])) else e2ee.State()
    }

    /** Handles every pending inbound MLS event once, in DAG order. `stopped` is the
        error of a group that could not be loaded. */
    method ProcessInboundMls(calls: seq<Inbound.Call>) returns (changed: bool, stopped: bool)
      modifies Parts()
      ensures Inbound.Progress(Db(), Engine(), changed, stopped)
              == Sync.InboundPass(old(Db()), old(Engine()), e2ee != null, user, calls)
    {
      changed, stopped := false, false;
      if e2ee != null {
        var items := store.InboundMls();
        changed, stopped := HandleAll(items, calls);
      }
    }

    method HandleAll(items: seq<T.MlsItem>, calls: seq<Inbound.Call>) returns (changed: bool, stopped: bool)
      requires e2ee != null
      modifies Parts()
      ensures Inbound.Progress(Db(), Engine(), changed, stopped)
              == Inbound.ProcessItems(old(Db()), old(Engine()), user, items, calls)
    {
      hide Inbound.ProcessItem, Inbound.CallNow, Inbound.CallLater;
      changed, stopped := false, false;
      ghost var whole := Inbound.ProcessItems(Db(), Engine(), user, items, calls);
      var later := calls;
      assert items[0..] == items;
      for i := 0 to |items|
        invariant !stopped
        invariant whole == var rest := Inbound.ProcessItems(Db(), Engine(), user, items[i..], later);
                           rest.(changed := changed || rest.changed)
      {
        var call := Inbound.CallNow(later);
        assert items[i..][0] == items[i] && items[i..][1..] == items[i + 1..];
        later := Inbound.CallLater(later);
        Inbound.AnsweredGoesOn(Db(), Engine(), user, items[i], call.io);
        var handled, failed := HandleInbound(items[i], call);
        if failed {
          return changed, true;
        }
        changed := changed || handled;
      }
    }

    method HandleInbound(item: T.MlsItem, call: Inbound.Call) returns (handled: bool, failed: bool)
      requires e2ee != null
      modifies Parts()
      ensures Inbound.Progress(Db(), Engine(), handled, failed)
              == if call.ask then Inbound.ProcessItem(old(Db()), old(Engine()), user, item, call.io)
                 else Inbound.Progress(old(Db()), old(Engine()), false, true)
    {
      handled, failed := false, false;
      var held := e2ee.HasRoom(item.room, call.ask);
      if held.None? {
        return false, true;
      }
      if !held.value {
        return;
      }
      match item {
        case CommitItem(id, room, sender, commit) =>
          if sender != user {
            var applied := e2ee.Apply(room, commit, call.io);
          }
          store.SetCommitProcessed(id);
        case MessageItem(id, room, sender, cipher) =>
          if sender == user {
            var waiting := store.RoomHasPendingSend(room);
            if waiting {
              return;
            }
          }
          var text := e2ee.Open(room, cipher, call.io);
          if text.Some? {
            store.SetDecrypted(id, text.value);
          } else {
            store.SetDecryptFailed(id);
          }
      }
      handled := true;
    }

    /** Joins the groups the Welcomes in a to-device list invite us to. */
    method ApplyToDevice(resp: Sync.Response, verdicts: seq<Inbound.Verdict>) returns (joined: bool)
      modifies Parts()
      ensures Db() == old(Db())
      ensures (Engine(), joined) == Sync.HandleToDevice(old(Engine()), e2ee != null, resp, verdicts)
    {
      joined := false;
      if resp.toDevice.None? || e2ee == null {
        return;
      }
      var evs := resp.toDevice.value;
      var later := verdicts;
      ghost var whole := Inbound.ApplyToDevice(Engine(), evs, verdicts);
      assert evs[0..] == evs;
      for i := 0 to |evs|
        invariant Db() == old(Db())
        invariant whole == var rest := Inbound.ApplyToDevice(Engine(), evs[i..], later);
                           (rest.0, joined || rest.1)
      {
        var ev := evs[i];
        var v := Inbound.VerdictNow(later);
        assert evs[i..][0] == ev && evs[i..][1..] == evs[i + 1..];
        later := Inbound.VerdictLater(later);
        if !ev.isWelcome || ev.welcome.None? {
          continue;
        }
        if ev.room.Some? {
          var held := e2ee.HasRoom(ev.room.value, v.ask);
          if held != Some(false) {
            continue;
          }
        }
        var ok := e2ee.Join(ev.welcome.value, v.accept, v.put);
        joined := joined || ok;
      }
    }

    /** Encrypts, holds or sends one queued message, and settles its echo. `stop`
        reports a transient failure. */
    method FlushSend(send: Queued, now: Flush.Try) returns (changed: bool, sent: seq<Flush.Attempt>, stop: bool)
      modifies Parts()
      ensures (Flush.Outcome(Db(), Engine(), changed, sent), stop) == Flush.FlushOne(old(Db()), old(Engine()),
               e2ee != null, send, now)
    {
      changed, sent, stop := false, [], false;
      var attempt: Flush.Attempt;
      var grouped := false;
      if e2ee != null {
        var held := e2ee.HasRoom(send.room, now.ask);
        if held.None? {
          store.FailSend(send.txn);
          changed := true;
          return;
        }
        grouped := held.value;
      }
      if grouped {
        var sealed := e2ee.Seal(send.room, send.body, now.io);
        if sealed.None? {
          store.FailSend(send.txn);
          changed := true;
          return;
        }
        attempt := Flush.Attempt(send.txn, send.room, Encrypted, SealedContent(sealed.value));
      } else {
        var encrypted := store.RoomIsEncrypted(send.room);
        if encrypted {
          return;
        }
        attempt := Flush.Attempt(send.txn, send.room, Message, TextContent(send.body));
      }
      sent := [attempt];
      match now.reply {
        case Acked(id) =>
          store.ResolveSend(send.txn, id);
          changed := true;
        case Transient =>
          stop := true;
        case Rejected =>
          store.FailSend(send.txn);
          changed := true;
      }
    }

    /** One pass over the queue; `sent` records what was transmitted. */
    method FlushPending(tries: seq<Flush.Try>) returns (changed: bool, sent: seq<Flush.Attempt>)
      modifies Parts()
      ensures Flush.Outcome(Db(), Engine(), changed, sent) == Flush.FlushPending(old(Db()), old(Engine()),
               e2ee != null, tries)
    {
      var queue := store.QueuedSends();
      changed, sent := FlushQueue(queue, tries);
    }

    method FlushQueue(queue: seq<Queued>, tries: seq<Flush.Try>) returns (changed: bool, sent: seq<Flush.Attempt>)
      modifies Parts()
      ensures Flush.Outcome(Db(), Engine(), changed, sent) == Flush.FlushItems(old(Db()), old(Engine()), e2ee != null,
               queue, tries)
    {
      hide Flush.FlushOne, Flush.TryNow, Flush.TryLater, Flush.FlushItems;
      changed, sent := false, [];
      var later := tries;
      ghost var whole := Flush.FlushItems(Db(), Engine(), e2ee != null, queue, tries);
      Flush.FlushFromAccumulates(Db(), Engine(), e2ee != null, queue, tries, false, []);
      assert queue[0..] == queue && [] + whole.sent == whole.sent;
      for i := 0 to |queue|
        invariant whole == Flush.FlushFrom(Db(), Engine(), e2ee != null, queue[i..], later, changed, sent)
      {
        assert queue[i..][0] == queue[i] && queue[i..][1..] == queue[i + 1..];
        var one, out, stop := FlushSend(queue[i], Flush.TryNow(later));
        later := Flush.TryLater(later);
        changed, sent := changed || one, sent + out;
        if stop {
          return;
        }
      }
    }

    /** Adds each claimed device, ships its Welcome and broadcasts the commit,
        stopping at the first failure. */
    method WelcomeToGroup(room: string, invitee: string, claims: seq<Welcoming.Claim>)
      returns (welcomes: seq<Welcome>, commits: seq<Commit>, ok: bool)
      requires e2ee != null
      modifies e2ee
      ensures Welcoming.Shipped(e2ee.State(), welcomes, commits, ok)
              == Welcoming.WelcomeDevices(old(e2ee.State()), room, invitee, claims)
    {
      hide AddMember;
      welcomes, commits, ok := [], [], true;
      ghost var whole := Welcoming.WelcomeDevices(e2ee.State(), room, invitee, claims);
      assert claims[0..] == claims;
      for i := 0 to |claims|
        invariant ok
        invariant whole == var rest := Welcoming.WelcomeDevices(e2ee.State(), room, invitee, claims[i..]);
                           Welcoming.Shipped(rest.engine, welcomes + rest.welcomes, commits + rest.commits, rest.ok)
      {
        var claim := claims[i];
        assert claims[i..][0] == claim && claims[i..][1..] == claims[i + 1..];
        var added := e2ee.Add(room, invitee, claim.accept, claim.put);
        if added.None? {
          return welcomes, commits, false;
        }
        ghost var rest := Welcoming.WelcomeDevices(e2ee.State(), room, invitee, claims[i + 1..]);
        Regroup(welcomes, added.value.welcome, rest.welcomes);
        Regroup(commits, added.value.commit, rest.commits);
        welcomes := welcomes + Welcoming.Reached(added.value.welcome, claim.welcomed);
        if !claim.welcomed.Delivered? {
          return welcomes, commits, false;
        }
        commits := commits + Welcoming.Reached(added.value.commit, claim.broadcast);
        if !claim.broadcast.Delivered? {
          return welcomes, commits, false;
        }
      }
    }

    /** Queues a message with its echo, then tries to deliver. */
    method SendMessage(txn: string, echo: string, room: string, body: string, ts: int, tries: seq<Flush.Try>)
        returns (ok: bool)
      modifies Parts()
      ensures ok == (echo !in old(Db()).events && txn !in old(Db()).pending)
      ensures ok ==> (Db(), Engine()) == var o := Flush.FlushPending(QueueSend(old(Db()), txn, echo, room, user, body,
               ts), old(Engine()), e2ee != null, tries);
                                         (o.db, o.engine)
      ensures !ok ==> (Db(), Engine()) == (old(Db()), old(Engine()))
    {
      ok := store.QueueSend(txn, echo, room, user, body, ts);
      if ok {
        var changed, sent := FlushPending(tries);
      }
    }

    /** One successful round of the sync loop: `since` is the token it asks with,
        `fatal` ends the loop, `refresh` is whether the observer is called. */
    method SyncRound(resp: Sync.Response, env: Sync.Env) returns (since: Option<string>, fatal: bool, refresh: bool)
      modifies Parts()
      ensures Sync.Round(Db(), Engine(), if fatal then None else Some(refresh))
              == Sync.SyncRound(old(Db()), old(Engine()), e2ee != null, user, resp, env)
      ensures since == old(Db()).token
    {
      since := store.LoadSyncToken();
      var applied := store.ApplyEvents(Sync.Batch(resp.rooms));
      if applied.Malformed? {
        return since, true, false;
      }
      var joined := ApplyToDevice(resp, env.verdicts);
      if resp.next.Some? {
        store.SaveSyncToken(resp.next.value);
      }
      var mls, stopped := ProcessInboundMls(env.calls);
      if stopped {
        return since, true, false;
      }
      var flushed, sent := FlushPending(env.tries);
      fatal, refresh := false, applied.value > 0 || joined || mls || flushed;
    }
  }
}
