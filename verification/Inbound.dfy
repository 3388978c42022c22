/** The pass that drives group state and the plaintext cache from the log, and
    the handling of Welcomes, as functions of the tables and the engine. */
module Inbound {
  import opened Base
  import opened Mls
  import opened Events
  import opened T = Tables

  // --- process_inbound_mls ------------------------------------------------------

  /** `stopped` says that a question failed and ended the pass with an error. */
  datatype Progress = Progress(db: Db, engine: Engine, changed: bool, stopped: bool)

  /** What the engine makes of one item: whether it answers if the group is held,
      and how the operation then fares. */
  datatype Call = Call(ask: bool, io: Io)

  /** One pending item, the question about its group answered. */
  function ProcessItem(db: Db, e: Engine, user: string, item: MlsItem, io: Io): Progress
  {
    if !HasGroup(e, item.room) then Progress(db, e, false, false)
    else
      match item
      case CommitItem(id, room, sender, commit) =>
        var e' := if sender != user then ProcessCommit(e, room, commit, io).0 else e;
        Progress(SetState(db, id, Done), e', true, false)
      case MessageItem(id, room, sender, cipher) =>
        if sender == user && HasPendingSend(db, room) then Progress(db, e, false, false)
        else
          var (e', text) := Decrypt(e, room, cipher, io);
          Progress(if text.Some? then SetDecrypted(db, id, text.value) else SetState(db, id, GaveUp), e', true, false)
  }

  lemma AnsweredGoesOn(db: Db, e: Engine, user: string, item: MlsItem, io: Io)
    ensures !ProcessItem(db, e, user, item, io).stopped
  {
  }

  /** `calls` lists what happens to the items in turn; beyond its end everything
      succeeds. */
  function CallNow(calls: seq<Call>): Call
  {
    if calls == [] then Call(true, Works) else calls[0]
  }

  function CallLater(calls: seq<Call>): seq<Call>
  {
    if calls == [] then [] else calls[1..]
  }

  function CallAt(calls: seq<Call>, k: nat): Call
  {
    if k < |calls| then calls[k] else Call(true, Works)
  }

  function ProcessItems(db: Db, e: Engine, user: string, items: seq<MlsItem>, calls: seq<Call>): Progress
    decreases |items|
  {
    if items == [] then Progress(db, e, false, false)
    else if !CallNow(calls).ask then Progress(db, e, false, true)
    else
      var one := ProcessItem(db, e, user, items[0], CallNow(calls).io);
      var rest := ProcessItems(one.db, one.engine, user, items[1..], CallLater(calls));
      rest.(changed := one.changed || rest.changed)
  }

  /** The whole pass works from the stream as it was when the pass started. */
  function ProcessPending(db: Db, e: Engine, user: string, calls: seq<Call>): Progress
  {
    ProcessItems(db, e, user, PendingMls(db), calls)
  }

  /** The message an item would have opened, had its load or its write not failed. */
  function MissedBy(e: Engine, item: MlsItem, io: Io): set<string>
  {
    if item.MessageItem? && CanOpen(e.device, item.room, item.cipher) && !io.Works? then {item.id} else {}
  }

  /** A message of ours is not tried while a send of ours is pending in its room. */
  function MissedAt(db: Db, e: Engine, user: string, item: MlsItem, io: Io): set<string>
  {
    if item.MessageItem? && item.sender == user && HasPendingSend(db, item.room) then {} else MissedBy(e, item, io)
  }

  /** The messages a pass could have opened, each at its turn, and did not. */
  function Missed(db: Db, e: Engine, user: string, items: seq<MlsItem>, calls: seq<Call>): set<string>
    decreases |items|
  {
    if items == [] || !CallNow(calls).ask then {}
    else
      var one := ProcessItem(db, e, user, items[0], CallNow(calls).io);
      MissedAt(db, e, user, items[0], CallNow(calls).io) + Missed(one.db, one.engine, user, items[1..],
        CallLater(calls))
  }

  /** A commit that applies is not consumed for want of its group. */
  predicate CommitLoads(e: Engine, item: MlsItem, io: Io)
  {
    item.CommitItem? && CanApply(e.device, item.room, item.commit) ==> !io.LoadFails?
  }

  predicate CommitsLoad(db: Db, e: Engine, user: string, items: seq<MlsItem>, calls: seq<Call>)
    decreases |items|
  {
    items == [] || !CallNow(calls).ask ||
    var one := ProcessItem(db, e, user, items[0], CallNow(calls).io);
    CommitLoads(e, items[0], CallNow(calls).io) && CommitsLoad(one.db, one.engine, user, items[1..], CallLater(calls))
  }

  /** A pass stops exactly when the question about some item fails. */
  lemma {:induction false} StopsIff(db: Db, e: Engine, user: string, items: seq<MlsItem>, calls: seq<Call>)
    ensures ProcessItems(db, e, user, items, calls).stopped <==> exists k: nat :: k < |items| && !CallAt(calls, k).ask
    decreases |items|
  {
    if items != [] {
      assert CallAt(calls, 0) == CallNow(calls);
      if CallNow(calls).ask {
        var one := ProcessItem(db, e, user, items[0], CallNow(calls).io);
        StopsIff(one.db, one.engine, user, items[1..], CallLater(calls));
        assert forall k: nat :: CallAt(calls, k + 1) == CallAt(CallLater(calls), k);
        if k: nat :| k < |items| && !CallAt(calls, k).ask {
          assert !CallAt(CallLater(calls), k - 1).ask;
        }
      }
    }
  }

  lemma {:induction false} QuietPassChangesNothing(db: Db, e: Engine, user: string, items: seq<MlsItem>,
      calls: seq<Call>)
    requires !ProcessItems(db, e, user, items, calls).changed
    ensures ProcessItems(db, e, user, items, calls) == Progress(db, e, false,
             ProcessItems(db, e, user, items, calls).stopped)
    decreases |items|
  {
    if items != [] && CallNow(calls).ask {
      QuietPassChangesNothing(db, e, user, items[1..], CallLater(calls));
    }
  }

  // --- apply_to_device -----------------------------------------------------------

  /** A to-device event; `welcome` is its Welcome field when that is a string,
      `room` the room id it names out of band. */
  datatype ToDevice = ToDevice(isWelcome: bool, welcome: Option<Welcome>, room: Option<string>)

  /** What the engine makes of one event: whether it answers if the named group is
      held, whether it accepts the Welcome, and the keystore write's outcome. */
  datatype Verdict = Verdict(ask: bool, accept: bool, put: bool)

  /** A Welcome is skipped when the group it names is held or cannot be asked for. */
  function Receive(e: Engine, ev: ToDevice, v: Verdict): (Engine, bool)
  {
    if !ev.isWelcome || ev.welcome.None? then (e, false)
    else if ev.room.Some? && (!v.ask || HasGroup(e, ev.room.value)) then (e, false)
    else JoinFromWelcome(e, ev.welcome.value, v.accept, v.put)
  }

  function VerdictNow(vs: seq<Verdict>): Verdict
  {
    if vs == [] then Verdict(true, true, true) else vs[0]
  }

  function VerdictLater(vs: seq<Verdict>): seq<Verdict>
  {
    if vs == [] then [] else vs[1..]
  }

  function VerdictAt(vs: seq<Verdict>, i: nat): Verdict
  {
    if i < |vs| then vs[i] else Verdict(true, true, true)
  }

  function ApplyToDevice(e: Engine, evs: seq<ToDevice>, vs: seq<Verdict>): (Engine, bool)
    decreases |evs|
  {
    if evs == [] then (e, false)
    else
      var (e1, one) := Receive(e, evs[0], VerdictNow(vs));
      var (e2, rest) := ApplyToDevice(e1, evs[1..], VerdictLater(vs));
      (e2, one || rest)
  }

  /** The rooms joined while handling a list, in order. */
  function Joins(e: Engine, evs: seq<ToDevice>, vs: seq<Verdict>): seq<string>
    decreases |evs|
  {
    if evs == [] then []
    else
      var (e1, one) := Receive(e, evs[0], VerdictNow(vs));
      var rest := Joins(e1, evs[1..], VerdictLater(vs));
      if one then [evs[0].welcome.value.room] + rest else rest
  }

  /** A Welcome this device could join from. */
  predicate ForUs(e: Engine, ev: ToDevice)
  {
    ev.isWelcome && ev.welcome.Some? && ev.welcome.value.Invitation? && ev.welcome.value.invitee == e.device.user
  }

  /** The client's own check keeps it from the engine. */
  predicate NamesHeld(e: Engine, ev: ToDevice)
  {
    ev.room.Some? && HasGroup(e, ev.room.value)
  }

  /** It reaches an engine that could accept it. */
  predicate Reaches(e: Engine, ev: ToDevice)
  {
    ForUs(e, ev) && !NamesHeld(e, ev)
  }

  lemma {:induction false} GroupsOnlyGrow(e: Engine, evs: seq<ToDevice>, vs: seq<Verdict>)
    ensures var e' := ApplyToDevice(e, evs, vs).0;
            e'.device.user == e.device.user && forall r | HasGroup(e, r) :: HasGroup(e', r)
    decreases |evs|
  {
    if evs != [] {
      GroupsOnlyGrow(Receive(e, evs[0], VerdictNow(vs)).0, evs[1..], VerdictLater(vs));
    }
  }

  // --- Lists in which the engine accepts only chosen Welcomes --------------------------

  ghost predicate Refused(vs: seq<Verdict>, n: nat)
  {
    n <= |vs| && forall k | 0 <= k < n :: !vs[k].accept
  }

  lemma {:induction false} RefusedPrefix(e: Engine, evs: seq<ToDevice>, vs: seq<Verdict>, n: nat)
    requires n <= |evs| && Refused(vs, n)
    ensures ApplyToDevice(e, evs, vs) == ApplyToDevice(e, evs[n..], vs[n..])
    ensures Joins(e, evs, vs) == Joins(e, evs[n..], vs[n..])
    decreases n
  {
    if n == 0 {
      assert evs[0..] == evs && vs[0..] == vs;
    } else {
      assert Receive(e, evs[0], vs[0]) == (e, false);
      RefusedPrefix(e, evs[1..], vs[1..], n - 1);
      assert evs[1..][n - 1..] == evs[n..] && vs[1..][n - 1..] == vs[n..];
    }
  }

  /** The verdicts that accept at the indices of `s` only. */
  function AcceptAt(n: nat, s: set<nat>): (vs: seq<Verdict>)
    ensures |vs| == n && forall k | 0 <= k < n :: vs[k] == Verdict(true, k in s, true)
  {
    seq(n, k requires 0 <= k < n => Verdict(true, k in s, true))
  }

  function Joined(e: Engine, ev: ToDevice): Engine
    requires ForUs(e, ev)
  {
    JoinFromWelcome(e, ev.welcome.value, true, true).0
  }

  /** From the first accepted index on, that Welcome is joined and the rest of the
      list is handled. */
  lemma FirstAccepted(e: Engine, evs: seq<ToDevice>, vs: seq<Verdict>, i: nat)
    requires i < |evs| == |vs| && Refused(vs, i) && vs[i] == Verdict(true, true, true) && Reaches(e, evs[i])
    ensures var room, e1 := evs[i].welcome.value.room, Joined(e, evs[i]);
            && ApplyToDevice(e, evs, vs) == (ApplyToDevice(e1, evs[i + 1..], vs[i + 1..]).0, true)
            && Joins(e, evs, vs) == [room] + Joins(e1, evs[i + 1..], vs[i + 1..])
  {
    RefusedPrefix(e, evs, vs, i);
    assert evs[i..][0] == evs[i] && evs[i..][1..] == evs[i + 1..];
    assert vs[i..][0] == vs[i] && vs[i..][1..] == vs[i + 1..];
  }

  lemma OnlyOneAccepted(e: Engine, evs: seq<ToDevice>, i: nat)
    requires i < |evs| && Reaches(e, evs[i])
    ensures var vs := AcceptAt(|evs|, {i});
            ApplyToDevice(e, evs, vs) == (Joined(e, evs[i]), true) && Joins(e, evs, vs) == [evs[i].welcome.value.room]
  {
    var vs := AcceptAt(|evs|, {i});
    FirstAccepted(e, evs, vs, i);
    AllRefused(Joined(e, evs[i]), evs[i + 1..], vs[i + 1..]);
  }

  lemma TwoAccepted(e: Engine, evs: seq<ToDevice>, i: nat, j: nat)
    requires i < j < |evs| && Reaches(e, evs[i]) && Reaches(Joined(e, evs[i]), evs[j])
    ensures Joins(e, evs, AcceptAt(|evs|, {i, j})) == [evs[i].welcome.value.room, evs[j].welcome.value.room]
  {
    hide Joins, ApplyToDevice, NamesHeld, AcceptAt, Joined, JoinFromWelcome;
    var vs := AcceptAt(|evs|, {i, j});
    FirstAccepted(e, evs, vs, i);
    var e1, tail, vs1 := Joined(e, evs[i]), evs[i + 1..], vs[i + 1..];
    assert tail[j - i - 1] == evs[j] && vs1[j - i - 1] == vs[j];
    FirstAccepted(e1, tail, vs1, j - i - 1);
    AllRefused(Joined(e1, evs[j]), tail[j - i..], vs1[j - i..]);
  }

  lemma AllRefused(e: Engine, evs: seq<ToDevice>, vs: seq<Verdict>)
    requires |evs| == |vs| && Refused(vs, |vs|)
    ensures Joins(e, evs, vs) == [] && ApplyToDevice(e, evs, vs) == (e, false)
  {
    RefusedPrefix(e, evs, vs, |vs|);
    assert evs[|evs|..] == [] && vs[|vs|..] == [];
  }

  // --- What redelivered Welcomes do -----------------------------------------------------

  /** Handling a list leaves a held group exactly as it was, whatever the engine
      says, if and only if every Welcome into it that reaches the engine would
      start it at the very state it is in. */
  lemma HeldGroupKeptIff(e: Engine, evs: seq<ToDevice>, r: string)
    requires HasGroup(e, r)
    ensures (forall vs: seq<Verdict> :: GroupAfter(e, evs, vs, r) == e.device.groups[r])
            <==> NothingStartsOver(e, evs, r)
  {
    if NothingStartsOver(e, evs, r) {
      forall vs: seq<Verdict> ensures GroupAfter(e, evs, vs, r) == e.device.groups[r] {
        GroupStays(e, evs, vs, r);
      }
    } else {
      var i :| 0 <= i < |evs| && StartsOver(e, evs[i], r);
      OnlyOneAccepted(e, evs, i);
      assert GroupAfter(e, evs, AcceptAt(|evs|, {i}), r) != e.device.groups[r];
    }
  }

  function GroupAfter(e: Engine, evs: seq<ToDevice>, vs: seq<Verdict>, r: string): Group
    requires HasGroup(e, r)
  {
    GroupsOnlyGrow(e, evs, vs);
    ApplyToDevice(e, evs, vs).0.device.groups[r]
  }

  predicate StartsOver(e: Engine, ev: ToDevice, r: string)
    requires HasGroup(e, r)
  {
    Reaches(e, ev) && ev.welcome.value.room == r && e.device.groups[r] != Group(ev.welcome.value.epoch, 0, {})
  }

  ghost predicate NothingStartsOver(e: Engine, evs: seq<ToDevice>, r: string)
    requires HasGroup(e, r)
  {
    forall i | 0 <= i < |evs| :: !StartsOver(e, evs[i], r)
  }

  lemma {:induction false} GroupStays(e: Engine, evs: seq<ToDevice>, vs: seq<Verdict>, r: string)
    requires HasGroup(e, r) && NothingStartsOver(e, evs, r)
    ensures HasGroup(ApplyToDevice(e, evs, vs).0, r)
             && ApplyToDevice(e, evs, vs).0.device.groups[r] == e.device.groups[r]
    decreases |evs|
  {
    if evs != [] {
      var e1 := Receive(e, evs[0], VerdictNow(vs)).0;
      assert !StartsOver(e, evs[0], r);
      forall i | 0 <= i < |evs[1..]| ensures !StartsOver(e1, evs[1..][i], r) {
        assert !StartsOver(e, evs[i + 1], r);
      }
      GroupStays(e1, evs[1..], VerdictLater(vs), r);
    }
  }

  /** The room id a Welcome names is that of the group inside. */
  predicate Named(ev: ToDevice)
  {
    ev.isWelcome && ev.welcome.Some? && ev.welcome.value.Invitation? ==> ev.room == Some(ev.welcome.value.room)
  }

  predicate AllNamed(evs: seq<ToDevice>)
  {
    forall i | 0 <= i < |evs| :: Named(evs[i])
  }

  /** Welcomes that name the group inside never touch a held group: no epoch rolls
      back, whatever is redelivered. */
  lemma NamedWelcomesNeverRollBack(e: Engine, evs: seq<ToDevice>, vs: seq<Verdict>)
    requires AllNamed(evs)
    ensures var e' := ApplyToDevice(e, evs, vs).0;
            && e'.device.user == e.device.user
            && forall r | HasGroup(e, r) :: HasGroup(e', r) && e'.device.groups[r] == e.device.groups[r]
  {
    GroupsOnlyGrow(e, evs, vs);
    forall r | HasGroup(e, r)
      ensures HasGroup(ApplyToDevice(e, evs, vs).0, r)
      ensures ApplyToDevice(e, evs, vs).0.device.groups[r] == e.device.groups[r]
    {
      forall i | 0 <= i < |evs| ensures !StartsOver(e, evs[i], r) {
        assert Named(evs[i]);
      }
      GroupStays(e, evs, vs, r);
    }
  }

  ghost predicate NoneTwice(e: Engine, js: seq<string>)
  {
    && (forall i | 0 <= i < |js| :: !HasGroup(e, js[i]))
    && (forall i, j | 0 <= i < j < |js| :: js[i] != js[j])
  }

  /** Both reach the engine, for one group, and the later does not name it. */
  predicate Doubles(e: Engine, first: ToDevice, later: ToDevice)
  {
    && Reaches(e, first) && Reaches(e, later)
    && first.welcome.value.room == later.welcome.value.room
    && later.room != Some(later.welcome.value.room)
  }

  /** No Welcome reaches the engine for a group it holds, and of two for one group
      the later one names it. */
  ghost predicate NoRejoin(e: Engine, evs: seq<ToDevice>)
  {
    && (forall i | 0 <= i < |evs| && Reaches(e, evs[i]) :: !HasGroup(e, evs[i].welcome.value.room))
    && (forall i, j | 0 <= i < j < |evs| :: !Doubles(e, evs[i], evs[j]))
  }

  lemma {:induction false} JoinedAtMostOnce(e: Engine, evs: seq<ToDevice>, vs: seq<Verdict>)
    requires NoRejoin(e, evs)
    ensures NoneTwice(e, Joins(e, evs, vs))
    ensures ApplyToDevice(e, evs, vs).1 <==> Joins(e, evs, vs) != []
    decreases |evs|
  {
    if evs != [] {
      var (e1, one) := Receive(e, evs[0], VerdictNow(vs));
      var tail := evs[1..];
      forall i | 0 <= i < |tail| && Reaches(e1, tail[i]) ensures !HasGroup(e1, tail[i].welcome.value.room) {
        assert tail[i] == evs[i + 1] && Reaches(e, evs[i + 1]);
        assert !Doubles(e, evs[0], evs[i + 1]);
      }
      forall i, j | 0 <= i < j < |tail| ensures !Doubles(e1, tail[i], tail[j]) {
        assert !Doubles(e, evs[i + 1], evs[j + 1]);
      }
      JoinedAtMostOnce(e1, tail, VerdictLater(vs));
      assert forall r | HasGroup(e, r) :: HasGroup(e1, r);
    }
  }

  /** Handling a list joins each group at most once and never one that was held,
      whatever the engine says, if and only if the list holds no such Welcome. */
  lemma JoinedAtMostOnceIff(e: Engine, evs: seq<ToDevice>)
    ensures (forall vs: seq<Verdict> :: NoneTwice(e, Joins(e, evs, vs))) <==> NoRejoin(e, evs)
  {
    if NoRejoin(e, evs) {
      forall vs: seq<Verdict> ensures NoneTwice(e, Joins(e, evs, vs)) {
        JoinedAtMostOnce(e, evs, vs);
      }
    } else if i :| 0 <= i < |evs| && Reaches(e, evs[i]) && HasGroup(e, evs[i].welcome.value.room) {
      OnlyOneAccepted(e, evs, i);
      var js := Joins(e, evs, AcceptAt(|evs|, {i}));
      assert HasGroup(e, js[0]) && !NoneTwice(e, js);
    } else {
      var i, j :| 0 <= i < j < |evs| && Doubles(e, evs[i], evs[j]);
      TwoAccepted(e, evs, i, j);
      var js := Joins(e, evs, AcceptAt(|evs|, {i, j}));
      assert js[0] == js[1] && !NoneTwice(e, js);
    }
  }

  ghost predicate NothingReaches(e: Engine, evs: seq<ToDevice>)
  {
    forall i | 0 <= i < |evs| :: !Reaches(e, evs[i])
  }

  lemma {:induction false} UnreachedListIsNoOp(e: Engine, evs: seq<ToDevice>, vs: seq<Verdict>)
    requires NothingReaches(e, evs)
    ensures ApplyToDevice(e, evs, vs) == (e, false)
    decreases |evs|
  {
    if evs != [] {
      assert !Reaches(e, evs[0]);
      assert Receive(e, evs[0], VerdictNow(vs)) == (e, false);
      assert forall i | 0 <= i < |evs[1..]| :: evs[1..][i] == evs[i + 1];
      UnreachedListIsNoOp(e, evs[1..], VerdictLater(vs));
    }
  }

  /** Replaying a to-device list changes nothing, whatever the engine would say,
      exactly when every Welcome in it for this device names a held group. */
  lemma ReplayIsNoOpIff(e: Engine, evs: seq<ToDevice>)
    ensures (forall vs: seq<Verdict> :: ApplyToDevice(e, evs, vs) == (e, false)) <==> NothingReaches(e, evs)
  {
    if NothingReaches(e, evs) {
      forall vs: seq<Verdict> ensures ApplyToDevice(e, evs, vs) == (e, false) {
        UnreachedListIsNoOp(e, evs, vs);
      }
    } else {
      var i :| 0 <= i < |evs| && Reaches(e, evs[i]);
      OnlyOneAccepted(e, evs, i);
      assert ApplyToDevice(e, evs, AcceptAt(|evs|, {i})) != (e, false);
    }
  }

  /** Every Welcome in the list for this device names its group, is asked about
      and is accepted. */
  ghost predicate AllSucceed(e: Engine, evs: seq<ToDevice>, vs: seq<Verdict>)
  {
    forall i: nat | i < |evs| && ForUs(e, evs[i]) ::
      evs[i].room == Some(evs[i].welcome.value.room) && VerdictAt(vs, i).ask && VerdictAt(vs, i).accept
  }

  lemma {:induction false} SucceedingJoins(e: Engine, evs: seq<ToDevice>, vs: seq<Verdict>, i: nat)
    requires AllSucceed(e, evs, vs) && i < |evs| && ForUs(e, evs[i])
    ensures HasGroup(ApplyToDevice(e, evs, vs).0, evs[i].welcome.value.room)
    decreases |evs|
  {
    var e1 := Receive(e, evs[0], VerdictNow(vs)).0;
    assert VerdictAt(vs, 0) == VerdictNow(vs);
    GroupsOnlyGrow(e1, evs[1..], VerdictLater(vs));
    if i == 0 {
      assert HasGroup(e1, evs[0].welcome.value.room);
    } else {
      forall k: nat | k < |evs[1..]| && ForUs(e1, evs[1..][k])
        ensures evs[1..][k].room == Some(evs[1..][k].welcome.value.room) && VerdictAt(VerdictLater(vs), k).ask
                 && VerdictAt(VerdictLater(vs), k).accept
      {
        assert ForUs(e, evs[k + 1]) && VerdictAt(VerdictLater(vs), k) == VerdictAt(vs, k + 1);
      }
      SucceedingJoins(e1, evs[1..], VerdictLater(vs), i - 1);
    }
  }

  /** A processed list is a no-op ever after exactly when every Welcome in it for
      this device names a group held by then, which is so when all of them name
      their groups and succeeded. */
  lemma ProcessedListIsNoOpIff(e: Engine, evs: seq<ToDevice>, vs: seq<Verdict>)
    ensures var e' := ApplyToDevice(e, evs, vs).0;
            && ((forall again: seq<Verdict> :: ApplyToDevice(e', evs, again) == (e', false))
                <==> forall i | 0 <= i < |evs| && ForUs(e, evs[i]) :: NamesHeld(e', evs[i]))
            && (AllSucceed(e, evs, vs) ==> forall again: seq<Verdict> :: ApplyToDevice(e', evs, again) == (e', false))
  {
    var e' := ApplyToDevice(e, evs, vs).0;
    GroupsOnlyGrow(e, evs, vs);
    ReplayIsNoOpIff(e', evs);
    if forall i | 0 <= i < |evs| && ForUs(e, evs[i]) :: NamesHeld(e', evs[i]) {
      forall i | 0 <= i < |evs| ensures !Reaches(e', evs[i]) {
        assert ForUs(e, evs[i]) ==> NamesHeld(e', evs[i]);
      }
    }
    forall i | 0 <= i < |evs| && ForUs(e, evs[i]) && !Reaches(e', evs[i]) ensures NamesHeld(e', evs[i]) {
    }
    if AllSucceed(e, evs, vs) {
      forall i: nat | i < |evs| && ForUs(e, evs[i]) ensures NamesHeld(e', evs[i]) {
        SucceedingJoins(e, evs, vs, i);
      }
    }
  }
}
