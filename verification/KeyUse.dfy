/** The ratchet in the machine: every call into the engine is one of its operations,
    so what is proved of all operation sequences holds of all runs, and a named
    Welcome can start a held group over only by losing a race. */
module KeyUse {
  import opened Base
  import opened Order
  import opened Mls
  import opened Events
  import opened T = Tables
  import opened Inbound
  import opened Flush
  import opened Sync
  import opened Machine
  import opened Uninterrupted
  import R = Ratchet
  import Invariants
  import Steps
  import Frames
  import Runs

  // --- Actions and operations -------------------------------------------------------------

  function OpOfItem(user: string, item: MlsItem, io: Io): Option<R.Op>
  {
    match item
    case MessageItem(_, room, _, cipher) => Some(R.Open(room, cipher, io))
    case CommitItem(_, room, sender, commit) => if sender != user then Some(R.Apply(room, commit, io)) else None
  }

  /** The operation the engine performs in this step, if any. */
  function OpOf(s: Sys, a: Action): Option<R.Op>
  {
    match a
    case FlushSeal(io) =>
      if SenderAt(s, Seal) then Some(R.Seal(s.sender.todo[0].room, s.sender.todo[0].body, io)) else None
    case PassStep(p, io) =>
      if p in s.passes && s.passes[p].todo != [] && s.passes[p].stage == Work
      then OpOfItem(s.user, s.passes[p].todo[0], io) else None
    case LoopJoin(p, accept, put) =>
      if JoiningAt(s, p, true) && ToDeviceOf(s.loops[p].resp)[s.loops[p].i].welcome.Some?
      then Some(R.Join(ToDeviceOf(s.loops[p].resp)[s.loops[p].i].welcome.value, accept, put)) else None
    case CreateRoomGroup(room, put) => Some(R.Create(room, put))
    case Invite(room, invitee, accept, put) => Some(R.Add(room, invitee, accept, put))
    case Crash => Some(R.Crash)
    case _ => None
  }

  function After(e: Engine, op: Option<R.Op>): Engine
  {
    if op.Some? then R.Step(e, op.value) else e
  }

  lemma PassStepIsOp(s: Sys, p: nat, io: Io)
    requires p in s.passes && s.passes[p].todo != []
    ensures DoPassStep(s, p, io).engine == After(s.engine, OpOf(s, PassStep(p, io)))
  {
    hide HasGroup, HasPendingSend, Decrypt, ProcessCommit, MissedBy, SetDecrypted, SetState;
  }

  lemma JoinIsOp(s: Sys, p: nat, accept: bool, put: bool)
    requires JoiningAt(s, p, true)
    ensures DoLoopJoin(s, p, accept, put).engine == After(s.engine, OpOf(s, LoopJoin(p, accept, put)))
  {
    hide JoinFromWelcome;
  }

  lemma OwnStepIsOp(s: Sys, a: Action)
    requires Enabled(s, a) && (a.FlushSeal? || a.CreateRoomGroup? || a.Invite? || a.Crash?)
    ensures Do(s, a).engine == After(s.engine, OpOf(s, a))
  {
    hide HasGroup, Encrypt, CreateGroup, AddMember, InHand;
  }

  /** The machine uses the engine by its operations only. */
  lemma StepIsOp(s: Sys, a: Action)
    requires Enabled(s, a)
    ensures Do(s, a).engine == After(s.engine, OpOf(s, a))
  {
    hide Do, Enabled;
    if a.PassStep? {
      Frames.PassStepIs(s, a.p, a.io);
      PassStepIsOp(s, a.p, a.io);
    } else if a.LoopJoin? {
      Frames.JoinStepIs(s, a.p, a.accept, a.put);
      JoinIsOp(s, a.p, a.accept, a.put);
    } else if Runs.UsesEngine(a) {
      OwnStepIsOp(s, a);
    } else {
      Runs.OthersKeepEngine(s, a);
    }
  }

  // --- Runs and operation sequences ----------------------------------------------------------

  function OpsOf(states: seq<Sys>, actions: seq<Action>, k: nat): seq<R.Op>
    requires k <= |actions| && k <= |states|
  {
    if k == 0 then []
    else
      var op := OpOf(states[k - 1], actions[k - 1]);
      OpsOf(states, actions, k - 1) + if op.Some? then [op.value] else []
  }

  const NOTHING := R.Released([], [])

  function NewEngine(user: string): Engine
  {
    Engine(Device(user, map[]), Device(user, map[]))
  }

  /** What the engine has handed out in the first `k` steps. */
  function ReleasedBy(user: string, states: seq<Sys>, actions: seq<Action>, k: nat): R.Released
    requires k <= |actions| && k <= |states|
  {
    R.Run(NewEngine(user), OpsOf(states, actions, k), NOTHING).1
  }

  lemma OneMore(e: Engine, ops: seq<R.Op>, op: R.Op, out: R.Released)
    ensures var (e1, out1) := R.Run(e, ops, out);
            R.Run(e, ops + [op], out) == (R.Step(e1, op), R.Release(e1, op, out1))
  {
    hide R.Step, R.Release;
    R.RunAppends(e, ops, [op], out);
    assert [op][1..] == [];
  }

  /** The engine of a run is that of its operations. */
  lemma {:induction false} RunIsOps(user: string, states: seq<Sys>, actions: seq<Action>, k: nat)
    requires RunFrom(user, states, actions) && k < |states|
    ensures R.Run(NewEngine(user), OpsOf(states, actions, k), NOTHING).0 == states[k].engine
  {
    hide Do, Enabled, R.Run, OpOf, R.Step;
    if k == 0 {
      NothingRun(NewEngine(user));
    } else {
      RunIsOps(user, states, actions, k - 1);
      StepIsOp(states[k - 1], actions[k - 1]);
      var op, ops := OpOf(states[k - 1], actions[k - 1]), OpsOf(states, actions, k - 1);
      if op.Some? {
        OneMore(NewEngine(user), ops, op.value, NOTHING);
      } else {
        assert ops + [] == ops;
      }
    }
  }

  lemma NothingRun(e: Engine)
    ensures R.Run(e, [], NOTHING) == (e, NOTHING)
  {
  }

  /** Starting the group in step `k` is past everything released before. */
  ghost predicate PermittedAt(user: string, states: seq<Sys>, actions: seq<Action>, k: nat)
    requires k < |actions| && k < |states|
  {
    OpOf(states[k], actions[k]).Some? ==>
      R.Permitted(states[k].engine, OpOf(states[k], actions[k]).value, ReleasedBy(user, states, actions, k))
  }

  lemma {:induction false} PermittedMore(e: Engine, ops: seq<R.Op>, op: R.Op, out: R.Released)
    ensures var (e1, out1) := R.Run(e, ops, out);
            R.PermittedRun(e, ops + [op], out) <==> R.PermittedRun(e, ops, out) && R.Permitted(e1, op, out1)
    decreases |ops|
  {
    hide R.Permitted, R.Step, R.Release;
    if ops == [] {
      assert ([] + [op])[1..] == [] && ([] + [op])[0] == op;
    } else {
      assert (ops + [op])[1..] == ops[1..] + [op] && (ops + [op])[0] == ops[0];
      PermittedMore(R.Step(e, ops[0]), ops[1..], op, R.Release(e, ops[0], out));
    }
  }

  lemma {:induction false} PermittedUpTo(user: string, states: seq<Sys>, actions: seq<Action>, n: nat)
    requires RunFrom(user, states, actions) && n <= |actions|
    ensures R.PermittedRun(NewEngine(user), OpsOf(states, actions, n), NOTHING)
            <==> forall k: nat | k < n :: PermittedAt(user, states, actions, k)
  {
    hide Do, Enabled, R.PermittedRun, R.Permitted, OpOf, R.Run;
    if n == 0 {
      EmptyPermitted(NewEngine(user));
    } else {
      PermittedUpTo(user, states, actions, n - 1);
      PermittedNext(user, states, actions, n - 1);
    }
  }

  lemma EmptyPermitted(e: Engine)
    ensures R.PermittedRun(e, [], NOTHING)
  {
  }

  lemma PermittedNext(user: string, states: seq<Sys>, actions: seq<Action>, k: nat)
    requires RunFrom(user, states, actions) && k < |actions|
    ensures R.PermittedRun(NewEngine(user), OpsOf(states, actions, k + 1), NOTHING)
            <==> (R.PermittedRun(NewEngine(user), OpsOf(states, actions, k), NOTHING)
                  && PermittedAt(user, states, actions, k))
  {
    hide R.PermittedRun, R.Permitted, OpOf, R.Run, Do, Enabled;
    RunIsOps(user, states, actions, k);
    var op, ops := OpOf(states[k], actions[k]), OpsOf(states, actions, k);
    if op.Some? {
      PermittedMore(NewEngine(user), ops, op.value, NOTHING);
    } else {
      assert ops + [] == ops;
    }
  }

  /** In a run of the machine no key is ever used twice, now or later, if and only if
      no step starts a group at or before an epoch something was released in. */
  lemma KeysNeverRepeatIff(user: string, states: seq<Sys>, actions: seq<Action>)
    requires RunFrom(user, states, actions)
    ensures R.NeverRepeats(NewEngine(user), OpsOf(states, actions, |actions|), NOTHING)
            <==> forall k: nat | k < |actions| :: PermittedAt(user, states, actions, k)
  {
    hide Do, Enabled, R.NeverRepeats, PermittedAt, R.PermittedRun, OpOf;
    R.WriteAheadRatchetIff(user, OpsOf(states, actions, |actions|));
    PermittedUpTo(user, states, actions, |actions|);
  }

  // --- Starting a held group over ---------------------------------------------------------------

  /** The step starts a group that is held over. */
  ghost predicate StartsOver(s: Sys, a: Action, room: string)
  {
    Enabled(s, a) && Runs.Acquires(s, a, room) && HasGroup(s.engine, room)
  }

  lemma StartsAcquire(s: Sys, a: Action, room: string, epoch: nat)
    requires Enabled(s, a) && s.engine.device.user == s.user
    requires OpOf(s, a).Some? && R.Starts(s.engine, OpOf(s, a).value, room, epoch)
    ensures Runs.Acquires(s, a, room)
  {
    hide Enabled, HasGroup;
  }

  lemma {:induction false} FreshWithoutStartingOver(user: string, states: seq<Sys>, actions: seq<Action>, n: nat)
    requires RunFrom(user, states, actions) && n <= |actions|
    requires forall k: nat, room | k < n :: !StartsOver(states[k], actions[k], room)
    ensures R.Ahead(states[n].engine, ReleasedBy(user, states, actions, n))
    ensures forall k: nat | k < n :: PermittedAt(user, states, actions, k)
  {
    hide Do, Enabled, R.Ahead, PermittedAt, ReleasedBy, StartsOver;
    RunIsOps(user, states, actions, n);
    if n == 0 {
      NewIsAhead(user, states, actions);
    } else {
      FreshWithoutStartingOver(user, states, actions, n - 1);
      AheadNext(user, states, actions, n - 1);
    }
  }

  lemma NewIsAhead(user: string, states: seq<Sys>, actions: seq<Action>)
    requires RunFrom(user, states, actions)
    ensures R.Ahead(states[0].engine, ReleasedBy(user, states, actions, 0))
  {
    hide IsRun;
  }

  lemma AheadNext(user: string, states: seq<Sys>, actions: seq<Action>, k: nat)
    requires RunFrom(user, states, actions) && k < |actions|
    requires R.Ahead(states[k].engine, ReleasedBy(user, states, actions, k))
    requires forall room :: !StartsOver(states[k], actions[k], room)
    ensures PermittedAt(user, states, actions, k)
    ensures R.Ahead(states[k + 1].engine, ReleasedBy(user, states, actions, k + 1))
  {
    hide R.Ahead, R.Run, OpOf, Do, Enabled, Invariants.Inv, R.Permitted, R.Step, R.Release;
    RunIsOps(user, states, actions, k);
    RunIsOps(user, states, actions, k + 1);
    var op, out := OpOf(states[k], actions[k]), ReleasedBy(user, states, actions, k);
    if op.Some? {
      forall room, epoch | R.Starts(states[k].engine, op.value, room, epoch)
        ensures !HasGroup(states[k].engine, room)
      {
        UserAt(user, states, actions, k);
        StartsAcquire(states[k], actions[k], room, epoch);
        assert !StartsOver(states[k], actions[k], room);
      }
      R.HeldCheckSuffices(states[k].engine, op.value, out);
      R.StepKeepsAhead(states[k].engine, op.value, out);
      OneMore(NewEngine(user), OpsOf(states, actions, k), op.value, NOTHING);
    } else {
      assert OpsOf(states, actions, k) + [] == OpsOf(states, actions, k);
    }
  }

  lemma UserAt(user: string, states: seq<Sys>, actions: seq<Action>, k: nat)
    requires RunFrom(user, states, actions) && k < |states|
    ensures states[k].engine.device.user == states[k].user
  {
    Runs.RunKeeps(user, states, actions, k);
  }

  /** A run in which no held group is started over never uses a key twice. */
  lemma NoStartOverNoRepeat(user: string, states: seq<Sys>, actions: seq<Action>)
    requires RunFrom(user, states, actions)
    requires forall k: nat, room | k < |actions| :: !StartsOver(states[k], actions[k], room)
    ensures R.NeverRepeats(NewEngine(user), OpsOf(states, actions, |actions|), NOTHING)
  {
    hide Do, Enabled, R.NeverRepeats, R.Ahead, PermittedAt, StartsOver;
    FreshWithoutStartingOver(user, states, actions, |actions|);
    KeysNeverRepeatIff(user, states, actions);
  }

  // --- The check and the join ---------------------------------------------------------------------

  predicate Checked(s: Sys, p: nat)
  {
    p in s.loops && s.loops[p].Joining? && s.loops[p].checked
  }

  /** A loop is made ready to join only by its own check. */
  lemma CheckedBy(s: Sys, a: Action, p: nat)
    requires Enabled(s, a) && Checked(Do(s, a), p)
    ensures a == LoopCheck(p) || (p in s.loops && Do(s, a).loops[p] == s.loops[p] && !a.Crash?)
  {
    hide Do, Enabled;
    if Steps.OnlyLoops(a) {
      LoopCheckedBy(s, a, p);
    } else if Steps.OnlySends(a) {
      Frames.SendingFrame(s, a);
    } else if a.PassStep? {
      Frames.PassStepIs(s, a.p, a.io);
      Frames.PassFrame(s, a.p, a.io);
    } else {
      OtherLoops(s, a);
    }
  }

  lemma OtherLoops(s: Sys, a: Action)
    requires Enabled(s, a) && !Steps.OnlyLoops(a) && !Steps.OnlySends(a) && !a.PassStep?
    ensures if a.Crash? then Do(s, a).loops == map[] else Do(s, a).loops == s.loops
  {
    hide FromServer, JoiningAt, HasGroup, QueueSend, ApplyEvents, CreateGroup, AddMember, PendingSends, PendingMls,
        ResolveSend, FailSend, Encrypt, EventFor, InHand;
  }

  lemma LoopCheckedBy(s: Sys, a: Action, p: nat)
    requires Enabled(s, a) && Steps.OnlyLoops(a) && Checked(Do(s, a), p)
    ensures a == LoopCheck(p) || (p in s.loops && Do(s, a).loops[p] == s.loops[p])
  {
    hide FromServer, JoiningAt, AsksFirst, DoLoopFold, DoLoopCheck, DoLoopAskError, DoLoopJoin, DoLoopSave;
    match a
    case LoopFold(q) => FoldUnchecked(s, q, p);
    case LoopCheck(q) => CheckUnchecked(s, q, p);
    case LoopAskError(q) => AskErrorUnchecked(s, q, p);
    case LoopJoin(q, accept, put) => JoinUnchecked(s, q, accept, put, p);
    case LoopSave(q) => SaveUnchecked(s, q, p);
    case _ =>
  }

  lemma FoldUnchecked(s: Sys, q: nat, p: nat)
    requires q in s.loops && s.loops[q].Folding? && Checked(DoLoopFold(s, q), p)
    ensures p in s.loops && DoLoopFold(s, q).loops[p] == s.loops[p]
  {
    hide ApplyEvents, Batch;
  }

  lemma CheckUnchecked(s: Sys, q: nat, p: nat)
    requires JoiningAt(s, q, false) && Checked(DoLoopCheck(s, q), p)
    ensures q == p || (p in s.loops && DoLoopCheck(s, q).loops[p] == s.loops[p])
  {
    hide HasGroup;
  }

  lemma AskErrorUnchecked(s: Sys, q: nat, p: nat)
    requires JoiningAt(s, q, false) && Checked(DoLoopAskError(s, q), p)
    ensures p in s.loops && DoLoopAskError(s, q).loops[p] == s.loops[p]
  {
  }

  lemma JoinUnchecked(s: Sys, q: nat, accept: bool, put: bool, p: nat)
    requires JoiningAt(s, q, true) && Checked(DoLoopJoin(s, q, accept, put), p)
    ensures p in s.loops && DoLoopJoin(s, q, accept, put).loops[p] == s.loops[p]
  {
    hide JoinFromWelcome;
  }

  lemma SaveUnchecked(s: Sys, q: nat, p: nat)
    requires q in s.loops && s.loops[q].Joining? && Checked(DoLoopSave(s, q), p)
    ensures p in s.loops && DoLoopSave(s, q).loops[p] == s.loops[p]
  {
    hide SaveToken;
  }

  /** Every join was checked, and nothing happened to its loop since. */
  ghost predicate CheckedAt(states: seq<Sys>, actions: seq<Action>, i: nat, j: nat, p: nat)
  {
    && i < j < |actions| && |states| == |actions| + 1 && actions[i] == LoopCheck(p)
    && Checked(states[j], p)
    && forall k: nat | i < k <= j ::
         !actions[k].Crash? && Checked(states[k], p) && states[k].loops[p] == states[j].loops[p]
  }

  lemma {:induction false} JoinWasChecked(user: string, states: seq<Sys>, actions: seq<Action>, j: nat, p: nat)
      returns (i: nat)
    requires RunFrom(user, states, actions) && j < |actions| && Checked(states[j], p) && !actions[j].Crash?
    ensures CheckedAt(states, actions, i, j, p)
  {
    hide Do, Enabled;
    if j == 0 {
      assert false;
    } else {
      CheckedBy(states[j - 1], actions[j - 1], p);
      if actions[j - 1] == LoopCheck(p) {
        i := j - 1;
      } else {
        i := JoinWasChecked(user, states, actions, j - 1, p);
      }
    }
  }

  lemma CheckPassed(s: Sys, p: nat)
    requires Enabled(s, LoopCheck(p)) && Checked(Do(s, LoopCheck(p)), p)
    ensures var l := Do(s, LoopCheck(p)).loops[p];
            && l.i < |ToDeviceOf(l.resp)|
            && (ToDeviceOf(l.resp)[l.i].room.Some? ==> !HasGroup(s.engine, ToDeviceOf(l.resp)[l.i].room.value))
            && Do(s, LoopCheck(p)).engine == s.engine
  {
  }

  /** The Welcome the join is about names the room of the group inside. */
  predicate JoinsNamed(s: Sys, p: nat, room: string)
  {
    && JoiningAt(s, p, true)
    && var ev := ToDeviceOf(s.loops[p].resp)[s.loops[p].i];
       ev.room == Some(room) && ev.welcome.Some? && ev.welcome.value.Invitation? && ev.welcome.value.room == room
  }

  predicate ForThisDevice(s: Sys, p: nat)
    requires JoiningAt(s, p, true)
  {
    var ev := ToDeviceOf(s.loops[p].resp)[s.loops[p].i];
    ev.welcome.Some? && ev.welcome.value.Invitation? && ev.welcome.value.invitee == s.user
  }

  lemma AcquiresNamed(s: Sys, p: nat, accept: bool, put: bool, room: string)
    requires JoinsNamed(s, p, room)
    ensures Enabled(s, LoopJoin(p, accept, put))
    ensures Runs.Acquires(s, LoopJoin(p, accept, put), room) <==> accept && ForThisDevice(s, p)
    ensures forall other :: Runs.Acquires(s, LoopJoin(p, accept, put), other) ==> other == room
  {
  }

  lemma CheckAcquiresNothing(s: Sys, p: nat, room: string)
    ensures !Runs.Acquires(s, LoopCheck(p), room)
  {
  }

  /** Joining a Welcome that names its group was preceded by the check of the same
      loop; it starts a held group over if and only if it is accepted for this device
      and some step between the two acquired the group. */
  lemma NamedJoinStartsOverIff(user: string, states: seq<Sys>, actions: seq<Action>, j: nat, p: nat, accept: bool,
      put: bool, room: string) returns (i: nat)
    requires RunFrom(user, states, actions) && j < |actions| && actions[j] == LoopJoin(p, accept, put)
    requires JoinsNamed(states[j], p, room)
    ensures CheckedAt(states, actions, i, j, p)
    ensures StartsOver(states[j], actions[j], room)
            <==> accept && ForThisDevice(states[j], p) && Runs.AcquiredBetween(states, actions, i + 1, j, room)
  {
    hide Do, Enabled, HasGroup, Runs.Acquires;
    i := JoinWasChecked(user, states, actions, j, p);
    AcquiresNamed(states[j], p, accept, put, room);
    assert Checked(states[i + 1], p);
    CheckPassed(states[i], p);
    CheckAcquiresNothing(states[i], p, room);
    Runs.HeldSince(user, states, actions, i + 1, j, room);
  }

  /** The Welcome, if it is for this device, names the room of the group inside. */
  predicate JoinsNamedOnly(s: Sys, p: nat)
    requires JoiningAt(s, p, true)
  {
    var ev := ToDeviceOf(s.loops[p].resp)[s.loops[p].i];
    ForThisDevice(s, p) ==> ev.room == Some(ev.welcome.value.room)
  }

  /** Some step between the loop's check and its join acquired the group. */
  ghost predicate LosesRace(states: seq<Sys>, actions: seq<Action>, j: nat, p: nat, room: string)
  {
    exists i: nat :: CheckedAt(states, actions, i, j, p) && Runs.AcquiredBetween(states, actions, i + 1, j, room)
  }

  lemma OnlyJoinsStartOver(s: Sys, a: Action, room: string)
    requires StartsOver(s, a, room)
    ensures a.LoopJoin? && JoiningAt(s, a.p, true) && ForThisDevice(s, a.p)
    ensures ToDeviceOf(s.loops[a.p].resp)[s.loops[a.p].i].welcome.value.room == room
  {
    hide HasGroup;
  }

  /** Every Welcome joined names its group, and no join loses a race against another
      acquisition of the group. */
  ghost predicate NamedAndUnraced(states: seq<Sys>, actions: seq<Action>)
    requires |states| == |actions| + 1
  {
    forall j: nat | j < |actions| && actions[j].LoopJoin? ::
      && JoiningAt(states[j], actions[j].p, true) && JoinsNamedOnly(states[j], actions[j].p)
      && forall room :: !LosesRace(states, actions, j, actions[j].p, room)
  }

  lemma NothingStartsOver(user: string, states: seq<Sys>, actions: seq<Action>, j: nat, room: string)
    requires RunFrom(user, states, actions) && NamedAndUnraced(states, actions) && j < |actions|
    ensures !StartsOver(states[j], actions[j], room)
  {
    hide Do, Enabled, Runs.AcquiredBetween, CheckedAt, LosesRace, StartsOver;
    if StartsOver(states[j], actions[j], room) {
      NamedStartIsRace(user, states, actions, j, room);
      assert false;
    }
  }

  /** When every Welcome joined names its group and no join loses a race against
      another acquisition of the group, no key is ever used twice. */
  lemma NamedRunsNeverRepeat(user: string, states: seq<Sys>, actions: seq<Action>)
    requires RunFrom(user, states, actions)
    requires NamedAndUnraced(states, actions)
    ensures R.NeverRepeats(NewEngine(user), OpsOf(states, actions, |actions|), NOTHING)
  {
    hide Do, Enabled, R.NeverRepeats, OpsOf, NamedAndUnraced, StartsOver;
    forall j: nat, room | j < |actions| {
      NothingStartsOver(user, states, actions, j, room);
    }
    NoStartOverNoRepeat(user, states, actions);
  }

  lemma NamedStartIsRace(user: string, states: seq<Sys>, actions: seq<Action>, j: nat, room: string)
    requires RunFrom(user, states, actions) && j < |actions| && StartsOver(states[j], actions[j], room)
    requires actions[j].LoopJoin? && JoiningAt(states[j], actions[j].p, true) ==>
               JoinsNamedOnly(states[j], actions[j].p)
    ensures actions[j].LoopJoin? && LosesRace(states, actions, j, actions[j].p, room)
  {
    hide Do, Enabled, Runs.AcquiredBetween, CheckedAt, StartsOver;
    OnlyJoinsStartOver(states[j], actions[j], room);
    var i := NamedJoinStartsOverIff(user, states, actions, j, actions[j].p, actions[j].accept, actions[j].put, room);
  }

  // --- Epochs --------------------------------------------------------------------------------------

  /** The rooms raised since the last write that succeeded. */
  function RaisedBy(states: seq<Sys>, actions: seq<Action>, k: nat): set<string>
    requires k <= |actions| && k <= |states|
  {
    if k == 0 then {}
    else
      var op := OpOf(states[k - 1], actions[k - 1]);
      var before := RaisedBy(states, actions, k - 1);
      if op.Some? then R.RaisedSince(states[k - 1].engine, op.value, before) else before
  }

  /** The step starts no group further back, and is no crash after a group was raised
      and before a write succeeded. */
  ghost predicate NotBackAt(states: seq<Sys>, actions: seq<Action>, k: nat)
    requires k < |actions| && k < |states|
  {
    var op := OpOf(states[k], actions[k]);
    op.Some? ==> R.NotBack(states[k].engine, op.value, RaisedBy(states, actions, k))
  }

  ghost predicate KeepsAt(states: seq<Sys>, k: nat)
    requires k + 1 < |states|
  {
    R.KeepsEpochs(states[k].engine, states[k + 1].engine)
  }

  lemma {:induction false} LagAlong(user: string, states: seq<Sys>, actions: seq<Action>, n: nat)
    requires RunFrom(user, states, actions) && n <= |actions|
    requires forall k: nat | k < n :: NotBackAt(states, actions, k)
    ensures R.LagsIn(states[n].engine, RaisedBy(states, actions, n))
  {
    hide Do, Enabled, R.LagsIn, R.NotBack, R.Step, R.RaisedSince, OpOf;
    if n == 0 {
      NothingLags(user);
    } else {
      LagAlong(user, states, actions, n - 1);
      StepIsOp(states[n - 1], actions[n - 1]);
      var op := OpOf(states[n - 1], actions[n - 1]);
      assert NotBackAt(states, actions, n - 1);
      if op.Some? {
        R.LagKept(states[n - 1].engine, op.value, RaisedBy(states, actions, n - 1));
      }
    }
  }

  lemma NothingLags(user: string)
    ensures R.LagsIn(Init(user).engine, {})
  {
  }

  lemma StepKeepsIff(user: string, states: seq<Sys>, actions: seq<Action>, k: nat)
    requires RunFrom(user, states, actions) && k < |actions|
    requires R.LagsIn(states[k].engine, RaisedBy(states, actions, k))
    ensures KeepsAt(states, k) <==> NotBackAt(states, actions, k)
  {
    hide Do, Enabled, R.LagsIn, R.NotBack, R.Step, OpOf, RaisedBy;
    StepIsOp(states[k], actions[k]);
    var op := OpOf(states[k], actions[k]);
    if op.Some? {
      R.StepKeepsEpochsIff(states[k].engine, op.value, RaisedBy(states, actions, k));
    }
  }

  /** In a run no held group is ever lost or moves to an earlier epoch if and only if
      no Welcome starts one further back and no crash comes between raising a group
      and the next write that succeeds. */
  lemma {:induction false} EpochsNeverFallIff(user: string, states: seq<Sys>, actions: seq<Action>, n: nat)
    requires RunFrom(user, states, actions) && n <= |actions|
    ensures (forall k: nat | k < n :: KeepsAt(states, k)) <==> (forall k: nat | k < n :: NotBackAt(states, actions, k))
  {
    hide Do, Enabled, KeepsAt, NotBackAt, R.LagsIn, RaisedBy;
    if n > 0 {
      EpochsNeverFallIff(user, states, actions, n - 1);
      if forall k: nat | k < n - 1 :: NotBackAt(states, actions, k) {
        LagAlong(user, states, actions, n - 1);
        StepKeepsIff(user, states, actions, n - 1);
      }
    }
  }

  lemma OnlyCrashesThrowBack(user: string, states: seq<Sys>, actions: seq<Action>, k: nat)
    requires RunFrom(user, states, actions) && NamedAndUnraced(states, actions) && k < |actions|
    ensures NotBackAt(states, actions, k) <==> (actions[k].Crash? ==> RaisedBy(states, actions, k) == {})
  {
    hide Do, Enabled, NamedAndUnraced, R.Starts, RaisedBy, Invariants.Inv;
    UserAt(user, states, actions, k);
    var op := OpOf(states[k], actions[k]);
    if op.Some? {
      forall room, epoch | R.Starts(states[k].engine, op.value, room, epoch)
        ensures !HasGroup(states[k].engine, room)
      {
        StartsAcquire(states[k], actions[k], room, epoch);
        NothingStartsOver(user, states, actions, k, room);
      }
    }
  }

  /** In such a run a held epoch falls only by a crash: no group is ever lost or moves
      to an earlier epoch if and only if every crash finds that no group was raised
      since the last write that succeeded. */
  lemma NamedRunsFallByCrashOnlyIff(user: string, states: seq<Sys>, actions: seq<Action>)
    requires RunFrom(user, states, actions) && NamedAndUnraced(states, actions)
    ensures (forall k: nat | k < |actions| :: KeepsAt(states, k))
            <==> (forall k: nat | k < |actions| && actions[k].Crash? :: RaisedBy(states, actions, k) == {})
  {
    hide Do, Enabled, NamedAndUnraced, KeepsAt, NotBackAt, RaisedBy;
    EpochsNeverFallIff(user, states, actions, |actions|);
    forall k: nat | k < |actions| {
      OnlyCrashesThrowBack(user, states, actions, k);
    }
  }
}
