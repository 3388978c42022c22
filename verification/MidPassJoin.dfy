/** Why a Welcome must not come in the middle of a pass that has skipped an item of
    its room: the run in which it does, and a message is lost. */
module MidPassJoin {
  import opened Base
  import opened Order
  import opened Mls
  import opened Events
  import opened T = Tables
  import opened Inbound
  import opened Sync
  import opened Machine
  import Runs
  import Uninterrupted

  /** The other member: a message sealed at epoch 1, and the commit after it. */
  datatype Case = Case(user: string, room: string, text: string)

  function Other(c: Case): string
  {
    c.user + "'"
  }

  function SealedEvent(c: Case): Event
  {
    var content := SealedContent(Sealed(c.room, 1, Other(c), 0, Some(c.text)));
    Event("$a", c.room, Other(c), Encrypted, None, 0, 1, ToWire("$a", c.room, Other(c), Encrypted, 0, 1, content))
  }

  function CommitEvent(c: Case): Event
  {
    var content := EMPTY.(commit := Some(Advance(c.room, 1, Other(c))));
    Event("$b", c.room, Other(c), MlsCommit, None, 0, 2, ToWire("$b", c.room, Other(c), MlsCommit, 0, 2, content))
  }

  function SealedItem(c: Case): MlsItem
  {
    MessageItem("$a", c.room, Other(c), Genuine(Sealed(c.room, 1, Other(c), 0, Some(c.text))))
  }

  function AdvanceItem(c: Case): MlsItem
  {
    CommitItem("$b", c.room, Other(c), Advance(c.room, 1, Other(c)))
  }

  function Rows(c: Case, a: DecryptState, b: DecryptState): Db
  {
    EMPTY_DB.(events := map["$a" := NewRow(SealedEvent(c)).(state := a), "$b" := NewRow(CommitEvent(c)).(state := b)])
  }

  function Holding(c: Case, epoch: nat): Engine
  {
    var d := Device(c.user, map[c.room := Group(epoch, 0, {})]);
    Engine(d, d)
  }

  function Invited(c: Case): Response
  {
    Response([], Some([ToDevice(true, Some(Invitation(c.room, 1, c.user)), Some(c.room))]), None)
  }

  // --- The states of the run ---------------------------------------------------------

  function Stored(c: Case): Sys
  {
    Init(c.user).(server := Server(map["$a" := SealedEvent(c), "$b" := CommitEvent(c)], map[]),
      db := Rows(c, Untried, Untried))
  }

  /** At work on these items, having joined nothing yet. */
  function Before(c: Case, todo: seq<MlsItem>): Sys
  {
    Stored(c).(passes := map[0 := Pass(todo, Check)])
  }

  function Looping(c: Case, l: Loop): Sys
  {
    Before(c, [AdvanceItem(c)]).(loops := map[0 := l])
  }

  /** After the Welcome: the group at this epoch, the rows and the pass. */
  function Joined(c: Case, epoch: nat, db: Db, passes: map<nat, Pass>): Sys
  {
    Looping(c, Joining([], Invited(c), 1, false)).(engine := Holding(c, epoch), db := db, passes := passes)
  }

  // --- Its steps ------------------------------------------------------------------------

  ghost predicate Moves(s: Sys, a: Action, s': Sys)
  {
    Enabled(s, a) && Do(s, a) == s'
  }

  lemma StepIs(s: Sys)
    requires 0 in s.passes && s.passes[0].todo != []
    ensures Moves(s, PassStep(0, Works), DoPassStep(s, 0, Works))
  {
    hide DoPassStep;
  }

  lemma BatchOfTwo(c: Case)
    ensures ApplyEvents(EMPTY_DB, [SealedEvent(c).payload, CommitEvent(c).payload]).0 == Rows(c, Untried, Untried)
  {
    var a, b := SealedEvent(c), CommitEvent(c);
    var ws := [a.payload, b.payload];
    assert ws[1..] == [b.payload] && ws[1..][1..] == [];
    assert ParseAll(ws[1..][1..]) == Ok([]) && [b] + [] == [b] && [a] + [b] == [a, b];
    assert ParseAll(ws[1..]) == Ok([b]) && ParseAll(ws) == Ok([a, b]);
    assert "$a"[1] != "$b"[1];
    assert [a, b][..1] == [a] && [a][..0] == [];
    assert ApplyAll(EMPTY_DB, []) == EMPTY_DB;
    assert ApplyAll(EMPTY_DB, [a]) == ApplyOne(EMPTY_DB, a);
    assert ApplyAll(EMPTY_DB, [a, b]) == ApplyOne(ApplyOne(EMPTY_DB, a), b);
  }

  lemma Publishes(c: Case)
    ensures var s1 := Init(c.user).(server := Server(map["$a" := SealedEvent(c)], map[]));
            var s2 := Init(c.user).(server := Stored(c).server);
            && Moves(Init(c.user), ServerPublish(SealedEvent(c)), s1)
            && Moves(s1, ServerPublish(CommitEvent(c)), s2)
  {
    assert "$a"[1] != "$b"[1];
  }

  lemma Stores(c: Case)
    ensures Moves(Init(c.user).(server := Stored(c).server),
             Backfill([SealedEvent(c).payload, CommitEvent(c).payload]), Stored(c))
  {
    hide ApplyEvents;
    assert "$a"[1] != "$b"[1];
    BatchOfTwo(c);
  }

  lemma TwoRanks(c: Case)
    ensures var db, ranks := Rows(c, Untried, Untried), [Rank(1, "$a"), Rank(2, "$b")];
            Ascending(ranks) && forall q :: q in ranks <==> q in MlsRanks(db)
  {
    var db, ranks := Rows(c, Untried, Untried), [Rank(1, "$a"), Rank(2, "$b")];
    assert db.events.Keys == {"$a", "$b"} && "$a"[1] != "$b"[1];
    assert ranks[0] in MlsRanks(db) && ranks[1] in MlsRanks(db);
  }

  lemma TwoInOrder(c: Case)
    ensures PendingMls(Rows(c, Untried, Untried)) == [SealedItem(c), AdvanceItem(c)]
  {
    var db, ranks := Rows(c, Untried, Untried), [Rank(1, "$a"), Rank(2, "$b")];
    TwoRanks(c);
    AscendingUnique(Ordered(MlsRanks(db)), ranks);
    hide MlsRanks, Ordered, Ascending, Below;
    assert "$a"[1] != "$b"[1];
  }

  lemma OneLeft(c: Case)
    ensures PendingMls(Rows(c, Untried, Done)) == [SealedItem(c)]
  {
    var db := Rows(c, Untried, Done);
    var ranks := [Rank(1, "$a")];
    assert db.events.Keys == {"$a", "$b"} && "$a"[1] != "$b"[1];
    assert ranks[0] in MlsRanks(db);
    forall q ensures q in ranks <==> q in MlsRanks(db) {
    }
    AscendingUnique(Ordered(MlsRanks(db)), ranks);
  }

  lemma Begins(c: Case)
    ensures Moves(Stored(c), PassBegin(0), Before(c, [SealedItem(c), AdvanceItem(c)]))
  {
    hide PendingMls, Do, Enabled, SealedItem, AdvanceItem, Rows, SealedEvent, CommitEvent;
    TwoInOrder(c);
    Uninterrupted.PassBeginIs(Stored(c), 0);
  }

  lemma Skips(c: Case)
    ensures Moves(Before(c, [SealedItem(c), AdvanceItem(c)]), PassStep(0, Works), Before(c, [AdvanceItem(c)]))
  {
    hide Moves, DoWork, DoWrite, Rows, SealedEvent, CommitEvent, AdvanceItem;
    StepIs(Before(c, [SealedItem(c), AdvanceItem(c)]));
    assert [SealedItem(c), AdvanceItem(c)][1..] == [AdvanceItem(c)];
    assert Before(c, [SealedItem(c), AdvanceItem(c)]).passes[0 := Pass([AdvanceItem(c)],
        Check)] == map[0 := Pass([AdvanceItem(c)], Check)];
  }

  lemma Polls(c: Case)
    ensures Moves(Before(c, [AdvanceItem(c)]), LoopBegin(0), Looping(c, Polling([])))
    ensures Moves(Looping(c, Polling([])), LoopReply(0, Invited(c)), Looping(c, Folding([], Invited(c))))
  {
    hide Do, Enabled, SealedEvent, CommitEvent, AdvanceItem, Rows;
    Uninterrupted.BeginIs(Before(c, [AdvanceItem(c)]), 0);
    Uninterrupted.ReplyIs(Looping(c, Polling([])), 0, Invited(c));
    assert map[0 := Polling([])][0 := Folding([], Invited(c))] == map[0 := Folding([], Invited(c))];
  }

  lemma FoldIs(s: Sys, p: nat)
    requires p in s.loops && s.loops[p].Folding?
    ensures Moves(s, LoopFold(p), DoLoopFold(s, p))
  {
    hide DoLoopFold;
  }

  lemma CheckIs(s: Sys, p: nat)
    requires JoiningAt(s, p, false)
    ensures Moves(s, LoopCheck(p), DoLoopCheck(s, p))
  {
    hide DoLoopCheck;
  }

  lemma Folds(c: Case)
    ensures Moves(Looping(c, Folding([], Invited(c))), LoopFold(0), Looping(c, Joining([], Invited(c), 0, false)))
  {
    hide Moves, Stored;
    FoldIs(Looping(c, Folding([], Invited(c))), 0);
    assert map[0 := Folding([], Invited(c))][0 := Joining([], Invited(c), 0, false)] == map[0 := Joining([],
        Invited(c), 0, false)];
  }

  lemma Checks(c: Case)
    ensures Moves(Looping(c, Joining([], Invited(c), 0, false)), LoopCheck(0),
             Looping(c, Joining([], Invited(c), 0, true)))
  {
    hide Moves;
    CheckIs(Looping(c, Joining([], Invited(c), 0, false)), 0);
    assert map[0 := Joining([], Invited(c), 0, false)][0 := Joining([], Invited(c), 0, true)] == map[0 := Joining([],
        Invited(c), 0, true)];
  }

  lemma Joins(c: Case)
    ensures Moves(Looping(c, Joining([], Invited(c), 0, true)), LoopJoin(0, true, true),
                  Joined(c, 1, Rows(c, Untried, Untried), map[0 := Pass([AdvanceItem(c)], Check)]))
  {
    hide Do, Enabled, SealedEvent, CommitEvent, AdvanceItem, Rows;
    Uninterrupted.JoinIs(Looping(c, Joining([], Invited(c), 0, true)), 0, true, true);
    assert map[0 := Joining([], Invited(c), 0, true)][0 := Joining([], Invited(c), 1, false)] == map[0 := Joining([],
        Invited(c), 1, false)];
  }

  lemma Asks(c: Case, epoch: nat, db: Db, item: MlsItem)
    requires item.room == c.room && item.sender != c.user
    ensures Moves(Joined(c, epoch, db, map[0 := Pass([item], Check)]), PassStep(0, Works),
             Joined(c, epoch, db, map[0 := Pass([item], Work)]))
  {
    hide Moves, DoWork, DoWrite, NextItem;
    StepIs(Joined(c, epoch, db, map[0 := Pass([item], Check)]));
    assert map[0 := Pass([item], Check)][0 := Pass([item], Work)] == map[0 := Pass([item], Work)];
  }

  lemma Applies(c: Case, db: Db)
    ensures Moves(Joined(c, 1, db, map[0 := Pass([AdvanceItem(c)], Work)]), PassStep(0, Works),
                  Joined(c, 2, db, map[0 := Pass([AdvanceItem(c)], Write(None))]))
  {
    hide Moves, DoWrite, NextItem;
    assert |Other(c)| != |c.user|;
    var s := Joined(c, 1, db, map[0 := Pass([AdvanceItem(c)], Work)]);
    StepIs(s);
    assert ProcessCommit(Holding(c, 1), c.room, Advance(c.room, 1, Other(c)), Works).0 == Holding(c,
        2) by { Commits(c); }
    assert map[0 := Pass([AdvanceItem(c)], Work)][0 := Pass([AdvanceItem(c)],
        Write(None))] == map[0 := Pass([AdvanceItem(c)], Write(None))];
  }

  lemma Commits(c: Case)
    ensures ProcessCommit(Holding(c, 1), c.room, Advance(c.room, 1, Other(c)), Works).0 == Holding(c, 2)
  {
    assert |Other(c)| != |c.user|;
    assert map[c.room := Group(1, 0, {})][c.room := Group(2, 0, {})] == map[c.room := Group(2, 0, {})];
  }

  /** At the next epoch the message does not open. */
  lemma Tries(c: Case, db: Db)
    ensures Moves(Joined(c, 2, db, map[0 := Pass([SealedItem(c)], Work)]), PassStep(0, Works),
                  Joined(c, 2, db, map[0 := Pass([SealedItem(c)], Write(None))]))
  {
    hide Moves, DoWrite, NextItem;
    StepIs(Joined(c, 2, db, map[0 := Pass([SealedItem(c)], Work)]));
    assert {} + MissedBy(Holding(c, 2), SealedItem(c), Works) == {};
    assert map[0 := Pass([SealedItem(c)], Work)][0 := Pass([SealedItem(c)],
        Write(None))] == map[0 := Pass([SealedItem(c)], Write(None))];
  }

  lemma Records(c: Case, db: Db, item: MlsItem, db': Db)
    requires db' == SetState(db, item.id, if item.CommitItem? then Done else GaveUp)
    ensures Moves(Joined(c, 2, db, map[0 := Pass([item], Write(None))]), PassStep(0, Works), Joined(c, 2, db', map[]))
  {
    hide Moves, DoWork, SetState;
    StepIs(Joined(c, 2, db, map[0 := Pass([item], Write(None))]));
    assert map[0 := Pass([item], Write(None))] - {0} == map[];
  }

  lemma Outcomes(c: Case)
    ensures SetState(Rows(c, Untried, Untried), "$b", Done) == Rows(c, Untried, Done)
    ensures SetState(Rows(c, Untried, Done), "$a", GaveUp) == Rows(c, GaveUp, Done)
    ensures AdvanceItem(c).id == "$b" && AdvanceItem(c).CommitItem? && SealedItem(c).id == "$a"
             && SealedItem(c).MessageItem?
  {
    hide SealedEvent, CommitEvent;
    assert "$a"[1] != "$b"[1];
  }

  lemma BeginsAgain(c: Case)
    ensures Moves(Joined(c, 2, Rows(c, Untried, Done), map[]), PassBegin(0),
                  Joined(c, 2, Rows(c, Untried, Done), map[0 := Pass([SealedItem(c)], Check)]))
  {
    hide PendingMls, Do, Enabled, SealedItem, Rows, SealedEvent, CommitEvent, Looping, Holding;
    OneLeft(c);
    Uninterrupted.PassBeginIs(Joined(c, 2, Rows(c, Untried, Done), map[]), 0);
  }

  // --- The run -----------------------------------------------------------------------------

  lemma Onward(states: seq<Sys>, actions: seq<Action>, a: Action, s': Sys)
      returns (states': seq<Sys>, actions': seq<Action>)
    requires IsRun(states, actions) && Moves(states[|actions|], a, s')
    ensures IsRun(states', actions') && states' == states + [s'] && actions' == actions + [a]
  {
    hide Do, Enabled, IsRun;
    states', actions' := Runs.Extend(states, actions, a);
  }

  lemma UpToTheJoin(c: Case) returns (states: seq<Sys>, actions: seq<Action>)
    ensures |actions| == 10 && |states| == 11 && RunFrom(c.user, states, actions)
    ensures states[10] == Joined(c, 1, Rows(c, Untried, Untried), map[0 := Pass([AdvanceItem(c)], Check)])
  {
    hide IsRun, Moves, Stored, Before, Looping, Joined, Rows, Init, Invited, SealedItem, AdvanceItem, SealedEvent,
        CommitEvent;
    Runs.JustStarted(c.user);
    states, actions := [Init(c.user)], [];
    Publishes(c);
    states, actions := Onward(states, actions, ServerPublish(SealedEvent(c)),
      Init(c.user).(server := Server(map["$a" := SealedEvent(c)], map[])));
    states, actions := Onward(states, actions, ServerPublish(CommitEvent(c)),
      Init(c.user).(server := Stored(c).server));
    Stores(c);
    states, actions := Onward(states, actions, Backfill([SealedEvent(c).payload, CommitEvent(c).payload]), Stored(c));
    Begins(c);
    states, actions := Onward(states, actions, PassBegin(0), Before(c, [SealedItem(c), AdvanceItem(c)]));
    Skips(c);
    states, actions := Onward(states, actions, PassStep(0, Works), Before(c, [AdvanceItem(c)]));
    Polls(c);
    states, actions := Onward(states, actions, LoopBegin(0), Looping(c, Polling([])));
    states, actions := Onward(states, actions, LoopReply(0, Invited(c)), Looping(c, Folding([], Invited(c))));
    Folds(c);
    states, actions := Onward(states, actions, LoopFold(0), Looping(c, Joining([], Invited(c), 0, false)));
    Checks(c);
    states, actions := Onward(states, actions, LoopCheck(0), Looping(c, Joining([], Invited(c), 0, true)));
    Joins(c);
    states, actions := Onward(states, actions, LoopJoin(0, true, true),
      Joined(c, 1, Rows(c, Untried, Untried), map[0 := Pass([AdvanceItem(c)], Check)]));
  }

  lemma WholeRun(c: Case) returns (states: seq<Sys>, actions: seq<Action>)
    ensures |actions| == 17 && |states| == 18 && RunFrom(c.user, states, actions)
    ensures states[10] == Joined(c, 1, Rows(c, Untried, Untried), map[0 := Pass([AdvanceItem(c)], Check)])
    ensures states[17] == Joined(c, 2, Rows(c, GaveUp, Done), map[])
  {
    ItemsAreOthers(c);
    hide IsRun, Moves, Joined, Rows, Init, SealedItem, AdvanceItem;
    states, actions := UpToTheJoin(c);
    Asks(c, 1, Rows(c, Untried, Untried), AdvanceItem(c));
    states, actions := Onward(states, actions, PassStep(0, Works),
      Joined(c, 1, Rows(c, Untried, Untried), map[0 := Pass([AdvanceItem(c)], Work)]));
    Applies(c, Rows(c, Untried, Untried));
    states, actions := Onward(states, actions, PassStep(0, Works),
      Joined(c, 2, Rows(c, Untried, Untried), map[0 := Pass([AdvanceItem(c)], Write(None))]));
    Outcomes(c);
    Records(c, Rows(c, Untried, Untried), AdvanceItem(c), Rows(c, Untried, Done));
    states, actions := Onward(states, actions, PassStep(0, Works), Joined(c, 2, Rows(c, Untried, Done), map[]));
    BeginsAgain(c);
    states, actions := Onward(states, actions, PassBegin(0),
      Joined(c, 2, Rows(c, Untried, Done), map[0 := Pass([SealedItem(c)], Check)]));
    Asks(c, 2, Rows(c, Untried, Done), SealedItem(c));
    states, actions := Onward(states, actions, PassStep(0, Works),
      Joined(c, 2, Rows(c, Untried, Done), map[0 := Pass([SealedItem(c)], Work)]));
    Tries(c, Rows(c, Untried, Done));
    states, actions := Onward(states, actions, PassStep(0, Works),
      Joined(c, 2, Rows(c, Untried, Done), map[0 := Pass([SealedItem(c)], Write(None))]));
    Records(c, Rows(c, Untried, Done), SealedItem(c), Rows(c, GaveUp, Done));
    states, actions := Onward(states, actions, PassStep(0, Works), Joined(c, 2, Rows(c, GaveUp, Done), map[]));
  }

  lemma ItemsAreOthers(c: Case)
    ensures SealedItem(c).room == c.room == AdvanceItem(c).room
    ensures SealedItem(c).sender != c.user && AdvanceItem(c).sender != c.user
  {
    assert |Other(c)| != |c.user|;
  }

  /** A pass skips a message for want of the group, the group is joined at that
      message's epoch, the same pass applies the commit behind it, and the message,
      which the device could open right after the join, is given up for good. Every
      keystore write succeeded and nothing crashed. */
  lemma JoinInMidPassLosesMessage(c: Case) returns (states: seq<Sys>, actions: seq<Action>)
    ensures |actions| == 17 && RunFrom(c.user, states, actions)
    ensures CanOpen(states[10].engine.device, c.room, SealedItem(c).cipher)
    ensures var s := states[17];
            && "$a" in s.db.events && s.db.events["$a"].ev == SealedEvent(c)
            && s.db.events["$a"].state == GaveUp && s.db.events["$a"].decrypted == None
            && s.passes == map[] && s.lost == {} && s.missed == {} && !s.lossy && Restart(s.engine) == s.engine
            && HasGroup(s.engine, c.room) && s.engine.device.groups[c.room].epoch == 2
  {
    hide IsRun;
    ItemsAreOthers(c);
    assert "$a"[1] != "$b"[1];
    states, actions := WholeRun(c);
  }
}
