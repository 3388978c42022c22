/** The machine left to one activity at a time does what the sequential functions
    say: an inbound pass, a flush pass and a whole sync round are among its runs. */
module Uninterrupted {
  import opened Base
  import opened Mls
  import opened Events
  import opened T = Tables
  import opened Inbound
  import opened Flush
  import opened Sync
  import opened Machine

  /** The machine gets from `s` to `s'` by these actions. */
  ghost predicate Leads(s: Sys, actions: seq<Action>, s': Sys)
    decreases |actions|
  {
    if actions == [] then s' == s
    else Enabled(s, actions[0]) && Leads(Do(s, actions[0]), actions[1..], s')
  }

  /** A step after which the observer must hear of the round: new events, a joined
      group, a handled item, a settled send. */
  ghost predicate Tells(s: Sys, a: Action)
    requires Enabled(s, a)
  {
    match a
    case LoopFold(p) =>
      var applied := ApplyEvents(s.db, Batch(s.loops[p].resp.rooms)).1;
      applied.Ok? && applied.value > 0
    case LoopJoin(p, accept, put) =>
      var ev := ToDeviceOf(s.loops[p].resp)[s.loops[p].i];
      ev.welcome.Some? && JoinFromWelcome(s.engine, ev.welcome.value, accept, put).1
    case PassStep(p, _) => s.passes[p].stage.Write?
    case FlushResolve => true
    case FlushFail => true
    case _ => false
  }

  ghost predicate Told(s: Sys, actions: seq<Action>)
    decreases |actions|
  {
    actions != [] && Enabled(s, actions[0]) && (Tells(s, actions[0]) || Told(Do(s, actions[0]), actions[1..]))
  }

  lemma One(s: Sys, a: Action)
    requires Enabled(s, a)
    ensures Leads(s, [a], Do(s, a)) && Told(s, [a]) == Tells(s, a)
  {
    hide Do, Enabled, Tells;
    assert [a][1..] == [];
  }

  lemma {:induction false} Then(s: Sys, a: seq<Action>, s1: Sys, b: seq<Action>, s2: Sys)
    requires Leads(s, a, s1) && Leads(s1, b, s2)
    ensures Leads(s, a + b, s2) && Told(s, a + b) == (Told(s, a) || Told(s1, b))
    decreases |a|
  {
    hide Do, Enabled, Tells;
    if a == [] {
      assert a + b == b;
    } else {
      assert (a + b)[0] == a[0] && (a + b)[1..] == a[1..] + b;
      Then(Do(s, a[0]), a[1..], s1, b, s2);
    }
  }

  lemma AndThen(s: Sys, a: seq<Action>, s1: Sys, x: Action)
    requires Leads(s, a, s1) && Enabled(s1, x)
    ensures Leads(s, a + [x], Do(s1, x)) && Told(s, a + [x]) == (Told(s, a) || Tells(s1, x))
  {
    hide Do, Enabled, Tells;
    One(s1, x);
    Then(s, a, s1, [x], Do(s1, x));
  }

  /** Such steps are a run, so what holds of every run holds of them. */
  lemma {:induction false} LeadsIsRun(s: Sys, actions: seq<Action>, s': Sys) returns (states: seq<Sys>)
    requires Leads(s, actions, s')
    ensures IsRun(states, actions) && states[0] == s && states[|actions|] == s'
    decreases |actions|
  {
    hide Do, Enabled;
    if actions == [] {
      states := [s];
    } else {
      var rest := LeadsIsRun(Do(s, actions[0]), actions[1..], s');
      states := [s] + rest;
      forall i | 0 <= i < |actions| ensures Enabled(states[i], actions[i])
          && states[i + 1] == Do(states[i], actions[i]) {
        assert i > 0 ==> states[i] == rest[i - 1] && actions[i] == actions[1..][i - 1];
      }
    }
  }

  // --- The inbound pass -----------------------------------------------------------

  /** Nothing but steps of pass `p`, whose engine calls fare like this. */
  predicate StepsOf(actions: seq<Action>, p: nat, io: Io)
  {
    forall k | 0 <= k < |actions| :: actions[k] == PassStep(p, io)
  }

  lemma StepsThen(a: seq<Action>, b: seq<Action>, p: nat, io: Io)
    requires StepsOf(a, p, io) && StepsOf(b, p, io)
    ensures StepsOf(a + b, p, io)
  {
  }

  predicate Waits(s: Sys, item: MlsItem)
  {
    item.MessageItem? && item.sender == s.user && HasPendingSend(s.db, item.room)
  }

  /** The pass stands at the engine call of its first item, or has moved on because
      the item has to wait. */
  ghost predicate Asked(s: Sys, p: nat, s': Sys)
    requires p in s.passes && s.passes[p].todo != []
  {
    var item := s.passes[p].todo[0];
    if !HasGroup(s.engine, item.room) || Waits(s, item) then s' == NextItem(s, p) else s' == AtStage(s, p, Work)
  }

  lemma AskAlone(s: Sys, p: nat, io: Io) returns (actions: seq<Action>, s': Sys)
    requires p in s.passes && s.passes[p].todo != [] && s.passes[p].stage == Check
    ensures Leads(s, actions, s') && Asked(s, p, s') && !Told(s, actions) && StepsOf(actions, p, io)
  {
    hide HasPendingSend, DoWork, DoWrite, HasGroup, Leads, Told;
    var item := s.passes[p].todo[0];
    Stay(s);
    Step(s, [], s, p, io);
    actions, s' := [] + [PassStep(p, io)], DoPassStep(s, p, io);
    if HasGroup(s.engine, item.room) && item.MessageItem? && item.sender == s.user {
      assert s' == AtStage(s, p, Own);
      Step(s, actions, s', p, io);
      actions, s' := actions + [PassStep(p, io)], DoPassStep(s', p, io);
      assert s' == if Waits(s, item) then NextItem(s, p) else AtStage(s, p, Work);
    }
  }

  /** The engine call and the write that records its outcome. */
  lemma WorkAlone(s: Sys, p: nat, io: Io) returns (actions: seq<Action>, s': Sys)
    requires p in s.passes && s.passes[p].todo != [] && s.passes[p].stage == Work
    requires HasGroup(s.engine, s.passes[p].todo[0].room) && !Waits(s, s.passes[p].todo[0])
    ensures Leads(s, actions, s') && OnlyInbound(s, s') && s'.passes == NextItem(s, p).passes && Told(s, actions)
    ensures StepsOf(actions, p, io)
    ensures s'.missed == s.missed + MissedBy(s.engine, s.passes[p].todo[0], io)
    ensures Progress(s'.db, s'.engine, true, false) == ProcessItem(s.db, s.engine, s.user, s.passes[p].todo[0], io)
  {
    hide HasPendingSend, ProcessItem, DoWork, DoWrite, Leads, Told, MissedBy;
    WorkThenWrite(s, p, io);
    Stay(s);
    Step(s, [], s, p, io);
    actions, s' := [] + [PassStep(p, io)], DoWork(s, p, io);
    Step(s, actions, s', p, io);
    actions, s' := actions + [PassStep(p, io)], DoWrite(s', p);
  }

  lemma WorkThenWrite(s: Sys, p: nat, io: Io)
    requires p in s.passes && s.passes[p].todo != [] && s.passes[p].stage == Work
    requires HasGroup(s.engine, s.passes[p].todo[0].room) && !Waits(s, s.passes[p].todo[0])
    ensures var mid := DoWork(s, p, io);
            && p in mid.passes && mid.passes[p].todo == s.passes[p].todo && mid.passes[p].stage.Write?
            && var s' := DoWrite(mid, p);
               && OnlyInbound(s, s') && s'.passes == NextItem(s, p).passes
               && s'.missed == s.missed + MissedBy(s.engine, s.passes[p].todo[0], io)
               && Progress(s'.db, s'.engine, true, false)
                   == ProcessItem(s.db, s.engine, s.user, s.passes[p].todo[0], io)
  {
    hide HasPendingSend, ProcessCommit, Decrypt, CanOpen, SetDecrypted, SetState;
    var mid := DoWork(s, p, io);
    assert mid.passes[p].todo == s.passes[p].todo;
    assert NextItem(mid, p).passes == NextItem(s, p).passes;
  }

  lemma Step(s: Sys, actions: seq<Action>, s1: Sys, p: nat, io: Io)
    requires Leads(s, actions, s1) && p in s1.passes && s1.passes[p].todo != []
    ensures Leads(s, actions + [PassStep(p, io)], DoPassStep(s1, p, io))
    ensures Told(s, actions + [PassStep(p, io)]) == (Told(s, actions) || s1.passes[p].stage.Write?)
  {
    AndThen(s, actions, s1, PassStep(p, io));
  }

  lemma LeftAlone(s: Sys, item: MlsItem, io: Io)
    requires !HasGroup(s.engine, item.room) || Waits(s, item)
    ensures ProcessItem(s.db, s.engine, s.user, item, io) == Progress(s.db, s.engine, false, false)
    ensures MissedAt(s.db, s.engine, s.user, item, io) == {}
  {
  }

  /** One item, from its first question to the next item. */
  lemma ItemAlone(s: Sys, p: nat, io: Io) returns (actions: seq<Action>, s': Sys)
    requires p in s.passes && s.passes[p].todo != [] && s.passes[p].stage == Check
    ensures Leads(s, actions, s') && OnlyInbound(s, s') && s'.passes == NextItem(s, p).passes
    ensures StepsOf(actions, p, io)
    ensures s'.missed == s.missed + MissedAt(s.db, s.engine, s.user, s.passes[p].todo[0], io)
    ensures var one := ProcessItem(s.db, s.engine, s.user, s.passes[p].todo[0], io);
            s'.db == one.db && s'.engine == one.engine && Told(s, actions) == one.changed
  {
    hide Leads, Told, HasPendingSend, ProcessItem, HasGroup, StepsOf, MissedBy;
    var item := s.passes[p].todo[0];
    actions, s' := AskAlone(s, p, io);
    if !HasGroup(s.engine, item.room) || Waits(s, item) {
      LeftAlone(s, item, io);
    } else {
      var more, s2 := WorkAlone(s', p, io);
      Then(s, actions, s', more, s2);
      StepsThen(actions, more, p, io);
      actions, s' := actions + more, s2;
    }
  }

  lemma Stay(s: Sys)
    ensures Leads(s, [], s) && !Told(s, [])
  {
  }

  lemma {:induction false} ItemsAlone(s: Sys, p: nat, calls: seq<Call>) returns (actions: seq<Action>, s': Sys)
    requires p in s.passes && s.passes[p].todo != [] && s.passes[p].stage == Check
    ensures Leads(s, actions, s') && OnlyInbound(s, s') && s'.passes == s.passes - {p}
    ensures var all := ProcessItems(s.db, s.engine, s.user, s.passes[p].todo, calls);
            s'.db == all.db && s'.engine == all.engine && Told(s, actions) == all.changed
    ensures s'.missed == s.missed + Missed(s.db, s.engine, s.user, s.passes[p].todo, calls)
    ensures calls == [] ==> StepsOf(actions, p, Works)
    decreases |s.passes[p].todo|
  {
    hide Leads, Told, ProcessItem, MissedAt, StepsOf;
    if !CallNow(calls).ask {
      StopsPass(s, p);
      actions, s' := [PassError(p)], s.(passes := s.passes - {p});
    } else {
      actions, s' := ItemAlone(s, p, CallNow(calls).io);
      if |s.passes[p].todo| > 1 {
        var more, s2 := ItemsAlone(s', p, CallLater(calls));
        Then(s, actions, s', more, s2);
        if calls == [] {
          StepsThen(actions, more, p, Works);
        }
        actions, s' := actions + more, s2;
      } else {
        LastMissed(s.db, s.engine, s.user, s.passes[p].todo, calls);
      }
    }
  }

  lemma LastMissed(db: Db, e: Engine, user: string, items: seq<MlsItem>, calls: seq<Call>)
    requires |items| == 1 && CallNow(calls).ask
    ensures Missed(db, e, user, items, calls) == MissedAt(db, e, user, items[0], CallNow(calls).io)
  {
    hide ProcessItem, MissedAt;
    assert items[1..] == [];
  }

  lemma StopsPass(s: Sys, p: nat)
    requires p in s.passes && s.passes[p].stage == Check
    ensures Leads(s, [PassError(p)], s.(passes := s.passes - {p})) && !Told(s, [PassError(p)])
  {
    hide Leads, Told;
    One(s, PassError(p));
  }

  lemma InboundStays(s: Sys)
    ensures OnlyInbound(s, s)
  {
  }

  lemma InboundThen(s: Sys, s1: Sys, s2: Sys)
    requires OnlyInbound(s, s1) && OnlyInbound(s1, s2)
    ensures OnlyInbound(s, s2)
  {
  }

  lemma BeginsPass(s: Sys, p: nat)
    requires p !in s.passes
    ensures Leads(s, [PassBegin(p)], DoPassBegin(s, p)) && OnlyInbound(s, DoPassBegin(s, p)) && !Told(s, [PassBegin(p)])
  {
    hide Leads, Told, PendingMls, Do, Enabled;
    PassBeginIs(s, p);
    One(s, PassBegin(p));
  }

  lemma PassBeginIs(s: Sys, p: nat)
    requires p !in s.passes
    ensures Enabled(s, PassBegin(p)) && Do(s, PassBegin(p)) == DoPassBegin(s, p)
  {
    hide DoPassBegin;
  }

  /** An inbound pass that nothing interrupts is the sequential one. */
  lemma PassAlone(s: Sys, p: nat, calls: seq<Call>) returns (actions: seq<Action>, s': Sys)
    requires p !in s.passes
    ensures Leads(s, actions, s') && OnlyInbound(s, s') && s'.passes == s.passes
    ensures var all := ProcessPending(s.db, s.engine, s.user, calls);
            s'.db == all.db && s'.engine == all.engine && Told(s, actions) == all.changed
    ensures s'.missed == s.missed + Missed(s.db, s.engine, s.user, PendingMls(s.db), calls)
    ensures PendingMls(s.db) != [] && calls == [] ==>
              actions != [] && actions[0] == PassBegin(p) && StepsOf(actions[1..], p, Works)
  {
    hide Leads, Told, ProcessItem, ProcessItems, PendingMls, OnlyInbound, Do, Enabled, MissedAt, StepsOf;
    actions, s' := [], s;
    if PendingMls(s.db) == [] {
      Stay(s);
      InboundStays(s);
      NothingToProcess(s.db, s.engine, s.user, calls);
    } else {
      var s1 := DoPassBegin(s, p);
      BeginsPass(s, p);
      actions, s' := ItemsAlone(s1, p, calls);
      Then(s, [PassBegin(p)], s1, actions, s');
      InboundThen(s, s1, s');
      actions := [PassBegin(p)] + actions;
      assert s1.passes - {p} == s.passes;
    }
  }

  lemma NothingToProcess(db: Db, e: Engine, user: string, calls: seq<Call>)
    requires PendingMls(db) == []
    ensures ProcessPending(db, e, user, calls) == Progress(db, e, false, false)
  {
  }

  // --- The flush pass --------------------------------------------------------------

  /** Only what a flush pass and the server's answers to it may change changed. */
  ghost predicate OnlyFlush(s: Sys, s': Sys)
  {
    s' == s.(db := s'.db, engine := s'.engine, server := s'.server, net := s'.net, sender := s'.sender,
             ledger := s'.ledger, origin := s'.origin)
  }

  /** A server that dedups could give this reply: an acknowledgement names the
      event it already made of the send, or one it can still make. */
  ghost predicate CanReply(server: Server, key: TxnKey, reply: Reply)
  {
    reply.Acked? ==>
      if key in server.dedup then server.dedup[key] == reply.id
      else reply.id !in server.events && !IsLocal(reply.id)
  }

  function ServerAfter(server: Server, user: string, sent: seq<Attempt>, reply: Reply): Server
  {
    if sent == [] || !reply.Acked? || TxnKey(sent[0].room, sent[0].txn) in server.dedup then server
    else Server(server.events[reply.id := EventFor(user, sent[0], reply.id, 0, 0)],
                server.dedup[TxnKey(sent[0].room, sent[0].txn) := reply.id])
  }

  function KeyOfSend(q: Queued): TxnKey
  {
    TxnKey(q.room, q.txn)
  }

  /** The answer, from the transmission to the next send or the end. */
  lemma AnswerAlone(s: Sys, reply: Reply) returns (actions: seq<Action>, s': Sys)
    requires s.sender.At? && s.sender.todo != [] && s.sender.stage.Send?
    requires s.sender.stage.attempt.txn == s.sender.todo[0].txn && s.sender.stage.attempt.room == s.sender.todo[0].room
    requires CanReply(s.server, KeyOfSend(s.sender.todo[0]), reply)
    ensures Leads(s, actions, s') && OnlyFlush(s, s')
    ensures s'.sender == if reply.Transient? then Off else NextSend(s.sender.todo)
    ensures s'.server == ServerAfter(s.server, s.user, [s.sender.stage.attempt], reply)
    ensures var one := Deliver(Outcome(s.db, s.engine, false, []), s.sender.stage.attempt, reply);
            s'.db == one.db && s'.engine == one.engine && Told(s, actions) == one.changed
  {
    hide Leads, Told, ResolveSend, FailSend;
    var a := s.sender.stage.attempt;
    One(s, FlushTransmit);
    actions, s' := [FlushTransmit], DoFlushTransmit(s);
    assert Do(s, FlushTransmit) == s';
    match reply
    case Transient =>
      AndThen(s, actions, s', FlushTransient);
      actions, s' := actions + [FlushTransient], s'.(sender := Off);
    case Rejected =>
      AndThen(s, actions, s', FlushReject);
      actions, s' := actions + [FlushReject], DoSend(s', Bad);
      AndThen(s, actions, s', FlushFail);
      actions, s' := actions + [FlushFail], DoFlushFail(s');
    case Acked(id) =>
      actions, s' := AckAlone(s, actions, s', id);
  }

  /** The server makes an event of the request, unless it already has. */
  lemma TakesAlone(s: Sys, before: seq<Action>, s1: Sys, a: Attempt, id: string) returns (actions: seq<Action>, s': Sys)
    requires Leads(s, before, s1) && !Told(s, before) && a in s1.net
    requires CanReply(s1.server, TxnKey(a.room, a.txn), Acked(id))
    ensures Leads(s, actions, s') && !Told(s, actions)
    ensures s' == s1.(server := s'.server, origin := s'.origin)
    ensures s'.server == ServerAfter(s1.server, s1.user, [a], Acked(id))
    ensures TxnKey(a.room, a.txn) in s'.server.dedup && s'.server.dedup[TxnKey(a.room, a.txn)] == id
  {
    hide Leads, Told;
    actions, s' := before, s1;
    if TxnKey(a.room, a.txn) !in s1.server.dedup {
      AndThen(s, actions, s', ServerTake(a, id, 0, 0));
      actions, s' := actions + [ServerTake(a, id, 0, 0)], DoServerTake(s', a, id, 0, 0);
    }
  }

  lemma AckAlone(s: Sys, before: seq<Action>, s1: Sys, id: string) returns (actions: seq<Action>, s': Sys)
    requires Leads(s, before, s1) && !Told(s, before) && s1.sender.At? && s1.sender.todo != [] && s1.sender.stage.Wait?
    requires var a := s1.sender.stage.attempt;
             a in s1.net && TxnKey(a.room, a.txn) == KeyOfSend(s1.sender.todo[0])
    requires CanReply(s1.server, KeyOfSend(s1.sender.todo[0]), Acked(id))
    ensures Leads(s, actions, s') && OnlyFlush(s1, s') && Told(s, actions)
    ensures s'.sender == NextSend(s1.sender.todo) && s'.engine == s1.engine
    ensures s'.server == ServerAfter(s1.server, s1.user, [s1.sender.stage.attempt], Acked(id))
    ensures s'.db == ResolveSend(s1.db, s1.sender.todo[0].txn, id)
  {
    hide Leads, Told, ResolveSend, ServerAfter, CanReply;
    actions, s' := TakesAlone(s, before, s1, s1.sender.stage.attempt, id);
    AndThen(s, actions, s', FlushAck);
    actions, s' := actions + [FlushAck], DoSend(s', Got(id));
    AndThen(s, actions, s', FlushResolve);
    actions, s' := actions + [FlushResolve], DoFlushResolve(s');
  }

  /** What a send that ends at `s'` comes to. */
  ghost predicate SendIs(s: Sys, t: Try, actions: seq<Action>, s': Sys)
    requires s.sender.At? && s.sender.todo != []
  {
    var (one, stop) := FlushOne(s.db, s.engine, true, s.sender.todo[0], t);
    && Leads(s, actions, s') && OnlyFlush(s, s')
    && s'.db == one.db && s'.engine == one.engine && Told(s, actions) == one.changed
    && s'.sender == (if stop then Off else NextSend(s.sender.todo))
    && s'.server == ServerAfter(s.server, s.user, one.sent, t.reply)
  }

  lemma UnaskedAlone(s: Sys, t: Try) returns (actions: seq<Action>, s': Sys)
    requires SenderAt(s, Choose) && !t.ask
    ensures SendIs(s, t, actions, s')
  {
    hide Leads, Told, FailSend, IsRoomEncrypted, Encrypt;
    One(s, FlushEngineError);
    actions, s' := [FlushEngineError], DoSend(s, Bad);
    assert Do(s, FlushEngineError) == s';
    AndThen(s, actions, s', FlushFail);
    actions, s' := actions + [FlushFail], DoFlushFail(s');
  }

  lemma SealAlone(s: Sys, t: Try) returns (actions: seq<Action>, s': Sys)
    requires SenderAt(s, Choose) && t.ask && HasGroup(s.engine, s.sender.todo[0].room)
    requires CanReply(s.server, KeyOfSend(s.sender.todo[0]), t.reply)
    ensures SendIs(s, t, actions, s')
  {
    hide Leads, Told, ResolveSend, FailSend, IsRoomEncrypted, Encrypt;
    var q := s.sender.todo[0];
    One(s, FlushChoose);
    actions, s' := [FlushChoose], DoSend(s, Seal);
    assert Do(s, FlushChoose) == s';
    AndThen(s, actions, s', FlushSeal(t.io));
    actions, s' := actions + [FlushSeal(t.io)], DoFlushSeal(s', t.io);
    if Encrypt(s.engine, q.room, q.body, t.io).1.None? {
      AndThen(s, actions, s', FlushFail);
      actions, s' := actions + [FlushFail], DoFlushFail(s');
    } else {
      var more, s2 := AnswerAlone(s', t.reply);
      Then(s, actions, s', more, s2);
      actions, s' := actions + more, s2;
    }
  }

  lemma PlainAlone(s: Sys, t: Try) returns (actions: seq<Action>, s': Sys)
    requires SenderAt(s, Choose) && t.ask && !HasGroup(s.engine, s.sender.todo[0].room)
    requires CanReply(s.server, KeyOfSend(s.sender.todo[0]), t.reply)
    ensures SendIs(s, t, actions, s')
  {
    hide Leads, Told, ResolveSend, FailSend, IsRoomEncrypted;
    One(s, FlushChoose);
    actions, s' := [FlushChoose], DoSend(s, Mark);
    assert Do(s, FlushChoose) == s';
    AndThen(s, actions, s', FlushMark);
    actions, s' := actions + [FlushMark], DoFlushMark(s');
    if !IsRoomEncrypted(s.db, s.sender.todo[0].room) {
      var more, s2 := AnswerAlone(s', t.reply);
      Then(s, actions, s', more, s2);
      actions, s' := actions + more, s2;
    }
  }

  /** One queued send, from its first question to the next send or the end. */
  lemma SendAlone(s: Sys, t: Try) returns (actions: seq<Action>, s': Sys)
    requires SenderAt(s, Choose) && CanReply(s.server, KeyOfSend(s.sender.todo[0]), t.reply)
    ensures SendIs(s, t, actions, s')
  {
    hide SendIs, CanReply, HasGroup;
    if !t.ask {
      actions, s' := UnaskedAlone(s, t);
    } else if HasGroup(s.engine, s.sender.todo[0].room) {
      actions, s' := SealAlone(s, t);
    } else {
      actions, s' := PlainAlone(s, t);
    }
  }

  /** The replies of a whole pass are ones the server could give, in turn. */
  ghost predicate CanReplyAll(server: Server, user: string, db: Db, e: Engine, todo: seq<Queued>, ts: seq<Try>)
    decreases |todo|
  {
    todo == [] ||
    var (one, stop) := FlushOne(db, e, true, todo[0], TryNow(ts));
    && CanReply(server, KeyOfSend(todo[0]), TryNow(ts).reply)
    && (stop || CanReplyAll(ServerAfter(server, user, one.sent, TryNow(ts).reply), user, one.db, one.engine, todo[1..],
                            TryLater(ts)))
  }

  lemma {:induction false} SendsAlone(s: Sys, ts: seq<Try>) returns (actions: seq<Action>, s': Sys)
    requires SenderAt(s, Choose) && CanReplyAll(s.server, s.user, s.db, s.engine, s.sender.todo, ts)
    ensures Leads(s, actions, s') && OnlyFlush(s, s') && s'.sender.Off?
    ensures var all := FlushItems(s.db, s.engine, true, s.sender.todo, ts);
            s'.db == all.db && s'.engine == all.engine && Told(s, actions) == all.changed
    decreases |s.sender.todo|
  {
    hide Leads, Told, FlushOne, CanReply, ServerAfter, TryLater, TryNow;
    actions, s' := SendAlone(s, TryNow(ts));
    if s'.sender.At? {
      var more, s2 := SendsAlone(s', TryLater(ts));
      Then(s, actions, s', more, s2);
      actions, s' := actions + more, s2;
    }
  }

  /** A flush pass that nothing interrupts is the sequential one. */
  lemma FlushAlone(s: Sys, ts: seq<Try>) returns (actions: seq<Action>, s': Sys)
    requires s.sender.Off? && CanReplyAll(s.server, s.user, s.db, s.engine, PendingSends(s.db), ts)
    ensures Leads(s, actions, s') && OnlyFlush(s, s') && s'.sender.Off?
    ensures var all := FlushPending(s.db, s.engine, true, ts);
            s'.db == all.db && s'.engine == all.engine && Told(s, actions) == all.changed
  {
    hide Leads, Told, CanReplyAll, FlushItems, PendingSends;
    One(s, FlushBegin);
    actions, s' := [FlushBegin], DoFlushBegin(s);
    assert Do(s, FlushBegin) == s';
    FlushIsItems(s.db, s.engine, ts);
    if s'.sender.At? {
      var more, s2 := SendsAlone(s', ts);
      Then(s, actions, s', more, s2);
      actions, s' := actions + more, s2;
    }
  }

  lemma FlushIsItems(db: Db, e: Engine, ts: seq<Try>)
    ensures FlushPending(db, e, true, ts) == FlushItems(db, e, true, PendingSends(db), ts)
    ensures PendingSends(db) == [] ==> FlushPending(db, e, true, ts) == Outcome(db, e, false, [])
  {
  }

  // --- The sync round ---------------------------------------------------------------

  /** One to-device event: skipped, or handed to the engine. */
  lemma WelcomeAlone(s: Sys, p: nat, v: Verdict) returns (actions: seq<Action>, s': Sys)
    requires JoiningAt(s, p, false)
    ensures Leads(s, actions, s') && OnlyLoop(s, s') && s'.db == s.db
    ensures s'.loops == s.loops[p := s.loops[p].(i := s.loops[p].i + 1)]
    ensures (s'.engine, Told(s, actions)) == Receive(s.engine, ToDeviceOf(s.loops[p].resp)[s.loops[p].i], v)
  {
    hide Leads, Told, HasGroup, Do, Enabled, JoinFromWelcome, DoLoopCheck, DoLoopJoin;
    CheckOutcome(s, p);
    if AsksFirst(ToDeviceOf(s.loops[p].resp)[s.loops[p].i]) && !v.ask {
      actions, s' := [LoopAskError(p)], DoLoopAskError(s, p);
      AskErrorAlone(s, p);
      return;
    }
    actions, s' := [LoopCheck(p)], DoLoopCheck(s, p);
    CheckAlone(s, p);
    if s'.loops[p].checked {
      JoinAfter(s, actions, s', p, v);
      JoinOutcome(s', p, v.accept, v.put);
      actions, s' := actions + [LoopJoin(p, v.accept, v.put)], DoLoopJoin(s', p, v.accept, v.put);
    }
  }

  /** The check skips the event, or leaves it to be joined. */
  lemma CheckOutcome(s: Sys, p: nat)
    requires JoiningAt(s, p, false)
    ensures var s', l := DoLoopCheck(s, p), s.loops[p];
            var ev := ToDeviceOf(l.resp)[l.i];
            && OnlyLoop(s, s') && s'.db == s.db && s'.engine == s.engine && p in s'.loops
            && if !ev.isWelcome || ev.welcome.None? || (ev.room.Some? && HasGroup(s.engine, ev.room.value))
               then s'.loops == s.loops[p := l.(i := l.i + 1)] && !s'.loops[p].checked
               else s'.loops == s.loops[p := l.(checked := true)]
  {
    hide HasGroup;
  }

  lemma JoinOutcome(s: Sys, p: nat, accept: bool, put: bool)
    requires JoiningAt(s, p, true)
    ensures var s', l := DoLoopJoin(s, p, accept, put), s.loops[p];
            var ev := ToDeviceOf(l.resp)[l.i];
            && OnlyLoop(s, s') && s'.db == s.db && s'.loops == s.loops[p := l.(i := l.i + 1, checked := false)]
            && (ev.welcome.Some? ==> s'.engine == JoinFromWelcome(s.engine, ev.welcome.value, accept, put).0)
  {
    hide JoinFromWelcome;
  }

  lemma CheckAlone(s: Sys, p: nat)
    requires JoiningAt(s, p, false)
    ensures Leads(s, [LoopCheck(p)], DoLoopCheck(s, p)) && !Told(s, [LoopCheck(p)])
  {
    hide Leads, Told, DoLoopCheck;
    One(s, LoopCheck(p));
  }

  lemma AskErrorAlone(s: Sys, p: nat)
    requires JoiningAt(s, p, false) && AsksFirst(ToDeviceOf(s.loops[p].resp)[s.loops[p].i])
    ensures Leads(s, [LoopAskError(p)], DoLoopAskError(s, p)) && !Told(s, [LoopAskError(p)])
  {
    hide Leads, Told, DoLoopAskError;
    One(s, LoopAskError(p));
  }

  lemma JoinAfter(s: Sys, actions: seq<Action>, s1: Sys, p: nat, v: Verdict)
    requires Leads(s, actions, s1) && !Told(s, actions) && JoiningAt(s1, p, true)
    ensures Leads(s, actions + [LoopJoin(p, v.accept, v.put)], DoLoopJoin(s1, p, v.accept, v.put))
    ensures var ev := ToDeviceOf(s1.loops[p].resp)[s1.loops[p].i];
            Told(s, actions + [LoopJoin(p, v.accept, v.put)]) == (ev.welcome.Some?
              && JoinFromWelcome(s1.engine, ev.welcome.value, v.accept, v.put).1)
  {
    hide Leads, Told, Do, Enabled, DoLoopJoin, JoinFromWelcome;
    JoinIs(s1, p, v.accept, v.put);
    AndThen(s, actions, s1, LoopJoin(p, v.accept, v.put));
  }

  lemma JoinIs(s: Sys, p: nat, accept: bool, put: bool)
    requires JoiningAt(s, p, true)
    ensures Enabled(s, LoopJoin(p, accept, put)) && Do(s, LoopJoin(p, accept, put)) == DoLoopJoin(s, p, accept, put)
  {
    hide DoLoopJoin;
  }

  lemma {:induction false} WelcomesAlone(s: Sys, p: nat, vs: seq<Verdict>) returns (actions: seq<Action>, s': Sys)
    requires p in s.loops && s.loops[p].Joining? && !s.loops[p].checked && s.loops[p].i <= |ToDeviceOf(s.loops[p].resp)|
    ensures var l := s.loops[p];
            && Leads(s, actions, s') && OnlyLoop(s, s') && s'.db == s.db
            && s'.loops == s.loops[p := l.(i := |ToDeviceOf(l.resp)|)]
            && (s'.engine, Told(s, actions)) == ApplyToDevice(s.engine, ToDeviceOf(l.resp)[l.i..], vs)
    decreases |ToDeviceOf(s.loops[p].resp)| - s.loops[p].i
  {
    hide Leads, Told, Receive;
    var l := s.loops[p];
    var evs := ToDeviceOf(l.resp);
    if l.i == |evs| {
      Stay(s);
      actions, s' := [], s;
    } else {
      assert evs[l.i..][0] == evs[l.i] && evs[l.i..][1..] == evs[l.i + 1..];
      actions, s' := WelcomeAlone(s, p, VerdictNow(vs));
      var more, s2 := WelcomesAlone(s', p, VerdictLater(vs));
      Then(s, actions, s', more, s2);
      actions, s' := actions + more, s2;
    }
  }

  lemma BeginsLoop(s: Sys, p: nat)
    requires p !in s.loops
    ensures Leads(s, [LoopBegin(p)], s.(loops := s.loops[p := Polling(s.path)])) && !Told(s, [LoopBegin(p)])
  {
    hide Leads, Told, Do, Enabled;
    BeginIs(s, p);
    One(s, LoopBegin(p));
  }

  lemma BeginIs(s: Sys, p: nat)
    requires p !in s.loops
    ensures Enabled(s, LoopBegin(p)) && !Tells(s, LoopBegin(p))
             && Do(s, LoopBegin(p)) == s.(loops := s.loops[p := Polling(s.path)])
  {
  }

  lemma ReplyIs(s: Sys, p: nat, resp: Response)
    requires p in s.loops && s.loops[p].Polling? && FromServer(s.server, Batch(resp.rooms))
    ensures var a := LoopReply(p, resp);
            Enabled(s, a) && !Tells(s, a) && Do(s, a) == s.(loops := s.loops[p := Folding(s.loops[p].path, resp)])
  {
    hide FromServer, Batch;
  }

  lemma FoldIs(s: Sys, p: nat)
    requires p in s.loops && s.loops[p].Folding?
    ensures Enabled(s, LoopFold(p)) && Do(s, LoopFold(p)) == DoLoopFold(s, p)
    ensures var applied := ApplyEvents(s.db, Batch(s.loops[p].resp.rooms)).1;
            Tells(s, LoopFold(p)) == (applied.Ok? && applied.value > 0)
  {
    hide DoLoopFold, ApplyEvents, Batch;
  }

  /** Poll, answer and fold; a malformed event ends the loop. */
  lemma FoldAlone(s: Sys, p: nat, resp: Response) returns (actions: seq<Action>, s': Sys)
    requires p !in s.loops && FromServer(s.server, Batch(resp.rooms))
    ensures Leads(s, actions, s') && OnlyLoop(s, s') && s'.engine == s.engine
    ensures var (folded, applied) := ApplyEvents(s.db, Batch(resp.rooms));
            && s'.db == folded
            && Told(s, actions) == (applied.Ok? && applied.value > 0)
            && s'.loops == if applied.Ok? then s.loops[p := Joining(s.path, resp, 0, false)] else s.loops
  {
    hide Leads, Told, Do, Enabled, Tells, ApplyEvents, FromServer, Batch;
    BeginsLoop(s, p);
    actions, s' := [LoopBegin(p)], s.(loops := s.loops[p := Polling(s.path)]);
    ReplyIs(s', p, resp);
    AndThen(s, actions, s', LoopReply(p, resp));
    actions, s' := actions + [LoopReply(p, resp)], s'.(loops := s'.loops[p := Folding(s.path, resp)]);
    FoldIs(s', p);
    AndThen(s, actions, s', LoopFold(p));
    actions, s' := actions + [LoopFold(p)], DoLoopFold(s', p);
    assert s.loops[p := Polling(s.path)][p := Folding(s.path, resp)] - {p} == s.loops;
  }

  /** Join and save the token. */
  lemma JoinAlone(s: Sys, p: nat, vs: seq<Verdict>) returns (actions: seq<Action>, s': Sys)
    requires p in s.loops && s.loops[p].Joining? && !s.loops[p].checked && s.loops[p].i == 0
    ensures Leads(s, actions, s') && OnlyLoop(s, s') && s'.loops == s.loops - {p}
    ensures s'.db == SaveToken(s.db, s.loops[p].resp)
    ensures (s'.engine, Told(s, actions)) == HandleToDevice(s.engine, true, s.loops[p].resp, vs)
  {
    hide Leads, Told, SaveToken;
    var resp := s.loops[p].resp;
    actions, s' := WelcomesAlone(s, p, vs);
    assert ToDeviceOf(resp)[0..] == ToDeviceOf(resp);
    AndThen(s, actions, s', LoopSave(p));
    actions, s' := actions + [LoopSave(p)], DoLoopSave(s', p);
  }

  /** A sync round that nothing interrupts, answered as the server could answer,
      is the sequential one, and ends with every activity at rest again. */
  lemma RoundAlone(s: Sys, p: nat, resp: Response, env: Env) returns (actions: seq<Action>, s': Sys)
    requires p !in s.loops && p !in s.passes && s.sender.Off? && FromServer(s.server, Batch(resp.rooms))
    requires var (folded, applied) := ApplyEvents(s.db, Batch(resp.rooms));
             applied.Ok? ==>
               var e := HandleToDevice(s.engine, true, resp, env.verdicts).0;
               var read := InboundPass(SaveToken(folded, resp), e, true, s.user, env.calls);
               !read.stopped ==> CanReplyAll(s.server, s.user, read.db, read.engine, PendingSends(read.db), env.tries)
    ensures Leads(s, actions, s')
    ensures var round := SyncRound(s.db, s.engine, true, s.user, resp, env);
            && s'.db == round.db && s'.engine == round.engine
            && (round.refresh.Some? ==> round.refresh.value == Told(s, actions))
    ensures s'.loops == s.loops && s'.passes == s.passes && s'.sender.Off?
  {
    hide Leads, Told, ApplyEvents, SaveToken, FromServer, Batch, CanReplyAll, FlushPending, ProcessPending,
        HandleToDevice, StepsOf, Missed, PendingMls, PendingSends;
    actions, s' := FoldAlone(s, p, resp);
    MalformedChangesNothing(s.db, Batch(resp.rooms));
    if p in s'.loops {
      var joined, s1 := JoinAlone(s', p, env.verdicts);
      Then(s, actions, s', joined, s1);
      var read, s2 := PassAlone(s1, p, env.calls);
      Then(s, actions + joined, s1, read, s2);
      assert s.loops[p := Joining(s.path, resp, 0, false)] - {p} == s.loops;
      actions, s' := actions + joined + read, s2;
      if !InboundPass(s1.db, s1.engine, true, s.user, env.calls).stopped {
        var sent, s3 := FlushAlone(s2, env.tries);
        Then(s, actions, s2, sent, s3);
        actions, s' := actions + sent, s3;
      }
    }
  }

  lemma MalformedChangesNothing(db: Db, ws: seq<Wire>)
    ensures ApplyEvents(db, ws).1.Malformed? ==> ApplyEvents(db, ws).0 == db
  {
  }
}
