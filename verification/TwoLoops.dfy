/** Why asking for the group and joining should be one step: the run in which two
    sync loops join one named Welcome and a key is used twice. */
module TwoLoops {
  import opened Base
  import opened Order
  import opened Mls
  import opened Events
  import opened T = Tables
  import opened Inbound
  import opened Flush
  import opened Sync
  import opened Machine
  import opened Uninterrupted
  import Ratchet
  import Runs

  /** A response with nothing but the Welcome, which names its room. */
  function Invited(user: string, room: string): Response
  {
    Response([], Some([ToDevice(true, Some(Invitation(room, 1, user)), Some(room))]), None)
  }

  lemma NothingFolded(user: string, room: string, db: Db)
    ensures Batch(Invited(user, room).rooms) == [] && ApplyEvents(db, []) == (db, Ok(0))
  {
    assert ApplyAll(db, []) == db;
  }

  /** A loop polls, folds nothing, and finds the group not held. */
  lemma ReadyToJoin(s: Sys, p: nat, room: string) returns (actions: seq<Action>, s': Sys, path: seq<Response>)
    requires p !in s.loops && !HasGroup(s.engine, room)
    ensures Leads(s, actions, s') && OnlyLoop(s, s') && s'.db == s.db && s'.engine == s.engine
    ensures s'.loops == s.loops[p := Joining(path, Invited(s.user, room), 0, true)]
  {
    hide Leads, Told, HasGroup, ApplyEvents, Do, Enabled, FromServer, Batch;
    var resp := Invited(s.user, room);
    NothingFolded(s.user, room, s.db);
    NothingForged(s.server);
    path := s.path;
    actions, s' := FoldAlone(s, p, resp);
    CheckAlone(s', p);
    var s2 := DoLoopCheck(s', p);
    Then(s, actions, s', [LoopCheck(p)], s2);
    actions, s' := actions + [LoopCheck(p)], s2;
  }

  lemma NothingForged(server: Server)
    ensures FromServer(server, [])
  {
  }

  /** The Welcome is accepted: the group starts at its epoch, held before or not. */
  lemma Joins(s: Sys, p: nat, room: string, path: seq<Response>)
    requires p in s.loops && s.loops[p] == Joining(path, Invited(s.user, room), 0, true)
    requires s.engine.device.user == s.user
    ensures var s' := DoLoopJoin(s, p, true, true);
            && Leads(s, [LoopJoin(p, true, true)], s') && OnlyLoop(s, s') && s'.db == s.db
            && s'.loops == s.loops[p := Joining(path, Invited(s.user, room), 1, false)]
            && HasGroup(s'.engine, room) && s'.engine.device.groups[room] == Group(1, 0, {})
            && s'.engine.device.user == s.user
  {
    hide Leads, Told, Do, Enabled;
    JoinIs(s, p, true, true);
    One(s, LoopJoin(p, true, true));
  }

  // --- One send ------------------------------------------------------------------------------

  ghost predicate OnlyPending(db: Db, txn: string)
  {
    db.pending.Keys == {txn}
  }

  /** What a send of this text becomes at the start of epoch 1. */
  function FirstOfEpoch(user: string, txn: string, room: string, body: string): Attempt
  {
    Attempt(txn, room, Encrypted, SealedContent(Sealed(room, 1, user, 0, Some(body))))
  }

  ghost predicate Sending(s: Sys, txn: string, room: string, body: string)
  {
    && s.sender.Off? && OnlyPending(s.db, txn) && s.db.pending[txn].room == room && s.db.pending[txn].body == body
    && s.engine.device.user == s.user && HasGroup(s.engine, room) && s.engine.device.groups[room] == Group(1, 0, {})
  }

  /** Choose, seal and transmit; the write ahead of the release succeeds. */
  lemma Transmits(s: Sys, txn: string, room: string, body: string) returns (actions: seq<Action>, s': Sys)
    requires Sending(s, txn, room, body)
    ensures Leads(s, actions, s')
    ensures var q, a := Queued(txn, room, body), FirstOfEpoch(s.user, txn, room, body);
            s' == s.(engine := Encrypt(s.engine, room, body, Works).0, sender := At([q], Wait(a)), net := s.net + {a})
  {
    hide Leads, Told, PendingSends, Encrypt;
    var q, a := Queued(txn, room, body), FirstOfEpoch(s.user, txn, room, body);
    Runs.OneInQueue(s.db, txn);
    Seals(s, room, body);
    One(s, FlushBegin);
    var s1 := s.(sender := At([q], Choose));
    AndThen(s, [FlushBegin], s1, FlushChoose);
    var s2 := s.(sender := At([q], Seal));
    AndThen(s, [FlushBegin] + [FlushChoose], s2, FlushSeal(Works));
    var s3 := DoFlushSeal(s2, Works);
    assert s3 == s.(engine := Encrypt(s.engine, room, body, Works).0, sender := At([q], Send(a)));
    AndThen(s, [FlushBegin] + [FlushChoose] + [FlushSeal(Works)], s3, FlushTransmit);
    actions, s' := [FlushBegin] + [FlushChoose] + [FlushSeal(Works)] + [FlushTransmit], DoFlushTransmit(s3);
  }

  lemma Seals(s: Sys, room: string, body: string)
    requires s.engine.device.user == s.user && HasGroup(s.engine, room)
             && s.engine.device.groups[room] == Group(1, 0, {})
    ensures Encrypt(s.engine, room, body, Works).1 == Some(Sealed(room, 1, s.user, 0, Some(body)))
    ensures Encrypt(s.engine, room, body, Works).0.device.user == s.user
  {
  }

  /** The server refuses it, and it fails. */
  lemma Refuses(s: Sys, q: Queued, a: Attempt) returns (actions: seq<Action>, s': Sys)
    requires s.sender == At([q], Wait(a)) && OnlyPending(s.db, q.txn)
    ensures Leads(s, actions, s') && OnlyFlush(s, s') && s'.net == s.net && s'.engine == s.engine
    ensures s'.sender.Off? && s'.db.pending == map[]
    ensures s'.ledger == s.ledger.(failed := s.ledger.failed + {q.txn})
  {
    hide Leads, Told;
    One(s, FlushReject);
    var s1 := DoSend(s, Bad);
    AndThen(s, [FlushReject], s1, FlushFail);
    actions, s' := [FlushReject] + [FlushFail], DoFlushFail(s1);
  }

  lemma Queues(s: Sys, txn: string, echo: string, room: string, body: string)
    requires s.db.pending == map[] && txn !in s.ledger.queued && IsLocal(echo) && echo !in s.ledger.owner
    ensures var s' := DoQueue(s, txn, echo, room, body, 0);
            && Leads(s, [Queue(txn, echo, room, body, 0)], s')
            && s' == s.(db := s'.db, ledger := s'.ledger)
            && OnlyPending(s'.db, txn) && s'.db.pending[txn].room == room && s'.db.pending[txn].body == body
            && s'.ledger.queued.Keys == s.ledger.queued.Keys + {txn}
            && s'.ledger.owner.Keys == s.ledger.owner.Keys + {echo}
  {
    hide Leads, Told, NextDepth, EchoRow;
    One(s, Queue(txn, echo, room, body, 0));
  }

  // --- The run -----------------------------------------------------------------------------------

  /** Both loops stand right before the join, and a message is queued. */
  lemma BothReady(user: string, room: string, body: string)
      returns (actions: seq<Action>, s: Sys, path0: seq<Response>, path1: seq<Response>)
    ensures Leads(Init(user), actions, s)
    ensures s == Init(user).(db := s.db, loops := s.loops, ledger := s.ledger, path := s.path, refused := s.refused,
                             unasked := s.unasked)
    ensures 0 in s.loops && s.loops[0] == Joining(path0, Invited(user, room), 0, true)
    ensures 1 in s.loops && s.loops[1] == Joining(path1, Invited(user, room), 0, true)
    ensures OnlyPending(s.db, "a") && s.db.pending["a"].room == room && s.db.pending["a"].body == body
    ensures s.ledger.queued.Keys == {"a"} && s.ledger.owner.Keys == {"$local-a"}
  {
    hide Leads, Told, DoQueue;
    var s0 := Init(user);
    var first, s1;
    first, s1, path0 := ReadyToJoin(s0, 0, room);
    var second, s2;
    second, s2, path1 := ReadyToJoin(s1, 1, room);
    Then(s0, first, s1, second, s2);
    assert "$local-a"[..7] == "$local-";
    Queues(s2, "a", "$local-a", room, body);
    s := DoQueue(s2, "a", "$local-a", room, body, 0);
    Then(s0, first + second, s2, [Queue("a", "$local-a", room, body, 0)], s);
    actions := first + second + [Queue("a", "$local-a", room, body, 0)];
  }

  /** The first loop joins, and the message goes out and is refused. */
  lemma FirstSent(s: Sys, room: string, body: string, path: seq<Response>) returns (actions: seq<Action>, s': Sys)
    requires 0 in s.loops && s.loops[0] == Joining(path, Invited(s.user, room), 0, true)
    requires s.engine.device.user == s.user && s.sender.Off?
    requires OnlyPending(s.db, "a") && s.db.pending["a"].room == room && s.db.pending["a"].body == body
    ensures Leads(s, actions, s')
    ensures s'.user == s.user && s'.lossy == s.lossy && s'.engine.device.user == s.user && s'.sender.Off?
             && s'.db.pending == map[]
    ensures s'.net == s.net + {FirstOfEpoch(s.user, "a", room, body)}
    ensures s'.loops == s.loops[0 := Joining(path, Invited(s.user, room), 1, false)]
    ensures s'.ledger.queued == s.ledger.queued && s'.ledger.owner == s.ledger.owner
  {
    hide Leads, Told, Encrypt, DoLoopJoin, PendingSends;
    Joins(s, 0, room, path);
    var s1 := DoLoopJoin(s, 0, true, true);
    var sent, s2 := Transmits(s1, "a", room, body);
    Then(s, [LoopJoin(0, true, true)], s1, sent, s2);
    Seals(s1, room, body);
    var refused, s3 := Refuses(s2, Queued("a", room, body), FirstOfEpoch(s.user, "a", room, body));
    Then(s, [LoopJoin(0, true, true)] + sent, s2, refused, s3);
    actions, s' := [LoopJoin(0, true, true)] + sent + refused, s3;
  }

  /** The second loop joins the same Welcome, and the next message goes out. */
  lemma SecondSent(s: Sys, room: string, body: string, path: seq<Response>) returns (actions: seq<Action>, s': Sys)
    requires 1 in s.loops && s.loops[1] == Joining(path, Invited(s.user, room), 0, true)
    requires s.engine.device.user == s.user && s.sender.Off? && s.db.pending == map[]
    requires s.ledger.queued.Keys == {"a"} && s.ledger.owner.Keys == {"$local-a"}
    ensures Leads(s, actions, s')
    ensures s'.user == s.user && s'.lossy == s.lossy && s'.net == s.net + {FirstOfEpoch(s.user, "b", room, body)}
    ensures s'.loops == s.loops[1 := Joining(path, Invited(s.user, room), 1, false)]
  {
    hide Leads, Told, Encrypt, DoLoopJoin, PendingSends, DoQueue;
    assert "$local-b"[..7] == "$local-" && "$local-b"[7] != "$local-a"[7];
    assert "b"[0] != "a"[0];
    Queues(s, "b", "$local-b", room, body);
    var s1 := DoQueue(s, "b", "$local-b", room, body, 0);
    Joins(s1, 1, room, path);
    var s2 := DoLoopJoin(s1, 1, true, true);
    Then(s, [Queue("b", "$local-b", room, body, 0)], s1, [LoopJoin(1, true, true)], s2);
    var sent, s3 := Transmits(s2, "b", room, body);
    Then(s, [Queue("b", "$local-b", room, body, 0)] + [LoopJoin(1, true, true)], s2, sent, s3);
    actions, s' := [Queue("b", "$local-b", room, body, 0)] + [LoopJoin(1, true, true)] + sent, s3;
  }

  /** Two loops ask for the same group before either joins it; both join the one
      Welcome, which names its room; a message is sealed after each. The two
      ciphertexts on the wire, of any two texts, share room, epoch and generation:
      one key sealed both. No crash had any part in it. */
  lemma OneKeyTwoMessages(user: string, room: string, first: string, second: string)
      returns (states: seq<Sys>, actions: seq<Action>, a: Attempt, b: Attempt)
    ensures RunFrom(user, states, actions)
    ensures var s := states[|actions|];
            && a in s.net && b in s.net && a.txn != b.txn
            && a.content.ciphertext.Some? && a.content.ciphertext.value.Genuine?
            && b.content.ciphertext.Some? && b.content.ciphertext.value.Genuine?
            && a.content.ciphertext.value.sealed.text == Some(first)
            && b.content.ciphertext.value.sealed.text == Some(second)
            && Ratchet.SameKey(a.content.ciphertext.value.sealed, b.content.ciphertext.value.sealed)
            && !s.lossy
            && forall p: nat | p < 2 :: p in s.loops && s.loops[p].Joining? && s.loops[p].resp == Invited(user, room)
  {
    hide Leads, Told;
    var before, s1, path0, path1 := BothReady(user, room, first);
    var one, s2 := FirstSent(s1, room, first, path0);
    Then(Init(user), before, s1, one, s2);
    var two, s3 := SecondSent(s2, room, second, path1);
    Then(Init(user), before + one, s2, two, s3);
    actions := before + one + two;
    states := LeadsIsRun(Init(user), actions, s3);
    a, b := FirstOfEpoch(user, "a", room, first), FirstOfEpoch(user, "b", room, second);
    assert "b"[0] != "a"[0];
  }
}
