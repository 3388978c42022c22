/** What tame runs come to: every pass that ends has caught up with all that was
    stored when it began. */
module CatchUp {
  import opened Base
  import opened Mls
  import opened Events
  import opened T = Tables
  import opened Inbound
  import opened Machine
  import opened EpochTracking
  import opened Overlap
  import CurrentState
  import Invariants
  import Steps
  import Frames
  import Runs

  // --- Every tame run ----------------------------------------------------------------------------------

  ghost function Zeros(hist: History): Counts
  {
    map r | r in hist.rooms :: 0
  }

  /** `ns` says how much of each history is stored in each state. */
  ghost predicate TameRun(states: seq<Sys>, actions: seq<Action>, hist: History, ns: seq<Counts>)
  {
    && IsRun(states, actions) && |ns| == |states| && Linear(hist, states[0].user)
    && (forall i | 0 <= i < |states| :: states[i].user == states[0].user && ns[i].Keys == hist.rooms.Keys)
    && forall i: nat | i < |actions| :: Tame(states[i], actions[i], hist, ns[i], ns[i + 1])
  }

  ghost predicate Ready(s: Sys, hist: History, n: Counts)
  {
    Overlapping(s, hist, n) && Invariants.Inv(s)
  }

  lemma BeginsReady(user: string, hist: History)
    requires Linear(hist, user) && forall id | id in hist.at :: !IsLocal(id)
    ensures Ready(Init(user), hist, Zeros(hist))
  {
    hide LinearAt, Invariants.Inv, Important, CipherOf, KeyOf;
    NobodysHands();
    Invariants.InitInv(user);
    var s, n := Init(user), Zeros(hist);
    forall r | r in hist.rooms ensures RoomStands(s, hist, n, r) {
      assert hist.rooms[r][..0] == [];
    }
  }

  /** In every state of a tame run every room of the history stands where it should:
      the group between the join and the stored commits, every event since the join
      either worked to its proper end or still within the group's reach. */
  lemma {:induction false} RunOverlaps(states: seq<Sys>, actions: seq<Action>, hist: History, ns: seq<Counts>, i: nat)
    requires TameRun(states, actions, hist, ns) && Ready(states[0], hist, ns[0]) && i < |states|
    ensures Ready(states[i], hist, ns[i])
  {
    hide Overlapping, Tame, Do, Enabled, Linear, Invariants.Inv;
    if i > 0 {
      RunOverlaps(states, actions, hist, ns, i - 1);
      Steps.StepKeeps(states[i - 1], actions[i - 1]);
      assert Tame(states[i - 1], actions[i - 1], hist, ns[i - 1], ns[i]);
      StepOv(states[i - 1], actions[i - 1], hist, ns[i - 1], ns[i]);
    }
  }

  // --- What waits and what is ahead -----------------------------------------------------------------------

  function Left(passes: map<nat, Pass>, p: nat): seq<MlsItem>
  {
    if p in passes then passes[p].todo else []
  }

  /** Every event of the room below `upTo` that waits is still ahead of the pass. */
  ghost predicate Covers(s: Sys, hist: History, p: nat, r: string, upTo: nat)
  {
    forall i: nat | i < upTo && Waiting(s, hist, r, i) ::
      InFront(Left(s.passes, p), |Left(s.passes, p)|, hist.rooms[r][i].eventId)
  }

  lemma BeginCovers(s: Sys, hist: History, n: Counts, p: nat, r: string)
    requires Ready(s, hist, n) && p !in s.passes && r in hist.rooms
    ensures Covers(DoPassBegin(s, p), hist, p, r, n[r])
  {
    hide PendingMls, Overlapping, Invariants.Inv, Out, Overlap.Pending, Important;
    var s' := DoPassBegin(s, p);
    AgreeOf(s);
    ShapeOf(s, hist, n);
    BeginSameView(s, p);
    assert Left(s'.passes, p) == PendingMls(s.db);
    forall i: nat | i < n[r] && Waiting(s', hist, r, i)
      ensures InFront(PendingMls(s.db), |PendingMls(s.db)|, hist.rooms[r][i].eventId)
    {
      assert Waiting(s, hist, r, i);
      var l := InTheStream(s, hist, n, r, i);
    }
  }

  lemma BeginSameView(s: Sys, p: nat)
    requires p !in s.passes
    ensures SameView(s, DoPassBegin(s, p))
  {
    hide PendingMls, InHand;
    HandsSame(s.passes, DoPassBegin(s, p).passes, p);
  }

  /** Short of a crash, less and less waits of what was stored. */
  lemma CoversTail(s: Sys, s': Sys, hist: History, n: Counts, p: nat, r: string, upTo: nat)
    requires Overlapping(s, hist, n) && p in s.passes && s.passes[p].todo != []
    requires r in hist.rooms && HasGroup(s.engine, r)
    requires Covers(s, hist, p, r, upTo) && Droppable(s, hist, s.passes[p].todo[0])
    requires Waits(s, s', hist, r, upTo) && Left(s'.passes, p) == s.passes[p].todo[1..]
    ensures Covers(s', hist, p, r, upTo)
  {
    hide RoomsStand, PassesStand, RowsKnown, OriginsApart, LinearAt, Overlap.Pending, Important;
    var todo := s.passes[p].todo;
    var tail := todo[1..];
    forall i: nat | i < upTo && Waiting(s', hist, r, i)
      ensures InFront(tail, |tail|, hist.rooms[r][i].eventId)
    {
      assert Waiting(s, hist, r, i);
      var id := hist.rooms[r][i].eventId;
      assert InFront(todo, |todo|, id);
      var l :| 0 <= l < |todo| && todo[l].id == id;
      IdsOfRoom(hist, s.user, r, i);
      assert l > 0 && tail[l - 1].id == id;
    }
  }

  /** Below `upTo`, nothing waits that did not. */
  ghost predicate Waits(s: Sys, s': Sys, hist: History, r: string, upTo: nat)
  {
    forall i: nat | i < upTo && Waiting(s', hist, r, i) :: Waiting(s, hist, r, i)
  }

  /** Whatever a pass step drops from the front may be dropped. */
  lemma PassStepDrops(s: Sys, hist: History, n: Counts, p: nat, io: Io)
    requires Overlapping(s, hist, n) && p in s.passes && s.passes[p].todo != []
    ensures var left := Left(DoPassStep(s, p, io).passes, p);
            left == s.passes[p].todo || (left == s.passes[p].todo[1..] && Droppable(s, hist, s.passes[p].todo[0]))
  {
    hide Overlapping, HasPendingSend, DoWork, DoWrite, NextItem, AtStage, Droppable, HasGroup;
    var item := s.passes[p].todo[0];
    NextLeaves(s, p);
    if !s.passes[p].stage.Check? {
      StageHeld(s, hist, n, p);
    }
    if s.passes[p].stage.Write? {
      WrittenDroppable(s, hist, n, p);
    } else if !HasGroup(s.engine, item.room) || s.passes[p].stage.Own? {
      SkipDroppable(s, hist, n, p);
    }
    match s.passes[p].stage
    case Check => StageLeaves(s, p, if item.MessageItem? && item.sender == s.user then Own else Work);
    case Own => StageLeaves(s, p, Work);
    case Work => WorkLeaves(s, p, io);
    case Write(_) => WriteLeaves(s, p);
  }

  lemma NextLeaves(s: Sys, p: nat)
    requires p in s.passes && s.passes[p].todo != []
    ensures Left(NextItem(s, p).passes, p) == s.passes[p].todo[1..]
  {
  }

  lemma StageLeaves(s: Sys, p: nat, stage: PassStage)
    requires p in s.passes
    ensures Left(AtStage(s, p, stage).passes, p) == s.passes[p].todo
  {
  }

  lemma WorkLeaves(s: Sys, p: nat, io: Io)
    requires p in s.passes && s.passes[p].todo != []
    ensures Left(DoWork(s, p, io).passes, p) == s.passes[p].todo
  {
    hide Decrypt, ProcessCommit, MissedBy;
  }

  lemma WriteLeaves(s: Sys, p: nat)
    requires p in s.passes && s.passes[p].todo != [] && s.passes[p].stage.Write?
    ensures Left(DoWrite(s, p).passes, p) == s.passes[p].todo[1..]
  {
    hide SetState, SetDecrypted;
  }

  // --- Other steps leave a pass alone ------------------------------------------------------------------

  lemma OthersLeave(s: Sys, a: Action, p: nat)
    requires Enabled(s, a) && p in s.passes && a != PassError(p) && !a.Crash? && !(a.PassStep? && a.p == p)
    ensures Left(Do(s, a).passes, p) == s.passes[p].todo && p in Do(s, a).passes
  {
    hide Do, Enabled;
    if a.PassStep? {
      Frames.PassStepIs(s, a.p, a.io);
      OtherPassLeaves(s, a.p, a.io, p);
    } else if a.PassBegin? || a.PassError? {
      OtherPassBegins(s, a, p);
    } else {
      PassesUntouched(s, a);
    }
  }

  lemma OtherPassBegins(s: Sys, a: Action, p: nat)
    requires Enabled(s, a) && p in s.passes && a != PassError(p) && (a.PassBegin? || a.PassError?)
    ensures p in Do(s, a).passes && Do(s, a).passes[p] == s.passes[p]
  {
    hide PendingMls;
  }

  lemma PassesUntouched(s: Sys, a: Action)
    requires Enabled(s, a) && !a.PassStep? && !a.PassBegin? && !a.PassError? && !a.Crash?
    ensures Do(s, a).passes == s.passes
  {
    hide Do, Enabled;
    if Steps.OnlySends(a) {
      Frames.SendingFrame(s, a);
    } else if Steps.OnlyLoops(a) {
      Frames.LoopFrame(s, a);
    } else {
      RestUntouched(s, a);
    }
  }

  lemma RestUntouched(s: Sys, a: Action)
    requires Enabled(s, a) && !Steps.OnlySends(a) && !Steps.OnlyLoops(a)
    requires !a.PassStep? && !a.PassBegin? && !a.PassError? && !a.Crash?
    ensures Do(s, a).passes == s.passes
  {
    hide FromServer, JoiningAt, AsksFirst, HasGroup, QueueSend, ApplyEvents, CreateGroup, AddMember, PendingSends,
        ResolveSend, FailSend, Encrypt, EventFor;
  }

  lemma OtherPassLeaves(s: Sys, q: nat, io: Io, p: nat)
    requires q in s.passes && s.passes[q].todo != [] && p in s.passes && p != q
    ensures p in DoPassStep(s, q, io).passes && DoPassStep(s, q, io).passes[p] == s.passes[p]
  {
    hide HasGroup, HasPendingSend, DoWork, DoWrite;
    match s.passes[q].stage
    case Work => OtherPassWorks(s, q, io, p);
    case Write(_) => OtherPassWrites(s, q, p);
    case _ =>
  }

  lemma OtherPassWorks(s: Sys, q: nat, io: Io, p: nat)
    requires q in s.passes && s.passes[q].todo != [] && p in s.passes && p != q
    ensures p in DoWork(s, q, io).passes && DoWork(s, q, io).passes[p] == s.passes[p]
  {
    hide Decrypt, ProcessCommit, MissedBy;
  }

  lemma OtherPassWrites(s: Sys, q: nat, p: nat)
    requires q in s.passes && s.passes[q].todo != [] && s.passes[q].stage.Write? && p in s.passes && p != q
    ensures p in DoWrite(s, q).passes && DoWrite(s, q).passes[p] == s.passes[p]
  {
    hide SetState, SetDecrypted;
  }

  lemma FewerBelow(s: Sys, s': Sys, hist: History, r: string, upTo: nat)
    requires Fewer(s, s', hist)
    ensures Waits(s, s', hist, r, upTo)
  {
    hide Waiting;
  }

  lemma CoversStay(s: Sys, s': Sys, hist: History, p: nat, r: string, upTo: nat)
    requires Covers(s, hist, p, r, upTo) && Waits(s, s', hist, r, upTo) && Left(s'.passes, p) == Left(s.passes, p)
    ensures Covers(s', hist, p, r, upTo)
  {
    hide Overlap.Pending, InFront, Left, Important;
  }

  lemma CoversStep(s: Sys, a: Action, hist: History, n: Counts, n': Counts, p: nat, r: string, upTo: nat)
    requires Ready(s, hist, n) && Linear(hist, s.user) && n.Keys == hist.rooms.Keys
    requires Enabled(s, a) && Tame(s, a, hist, n, n')
    requires p in s.passes && a != PassError(p) && !a.Crash?
    requires r in hist.rooms && HasGroup(s.engine, r) && Covers(s, hist, p, r, upTo)
    ensures Covers(Do(s, a), hist, p, r, upTo)
  {
    hide Overlapping, Linear, Do, Enabled, Tame, Invariants.Inv, Covers, Waits, Fewer, HasGroup, Droppable;
    StepOv(s, a, hist, n, n');
    FewerBelow(s, Do(s, a), hist, r, upTo);
    if a.PassStep? && a.p == p {
      Frames.PassStepIs(s, p, a.io);
      PassStepDrops(s, hist, n, p, a.io);
      if Left(Do(s, a).passes, p) != s.passes[p].todo {
        CoversTail(s, Do(s, a), hist, n, p, r, upTo);
      } else {
        CoversStay(s, Do(s, a), hist, p, r, upTo);
      }
    } else {
      OthersLeave(s, a, p);
      CoversStay(s, Do(s, a), hist, p, r, upTo);
    }
  }

  // --- What one pass gets done --------------------------------------------------------------------------

  /** Pass `p` begins at step `a`, is at work until step `b` ends it, and ends
      neither by an error nor by a crash. */
  ghost predicate WholePass(states: seq<Sys>, actions: seq<Action>, p: nat, a: nat, b: nat)
  {
    && a < b < |states| && b <= |actions| && actions[a] == PassBegin(p) && p !in states[b].passes
    && forall k: nat | a < k < b :: p in states[k].passes && actions[k] != PassError(p) && !actions[k].Crash?
  }

  lemma HeldStays(s: Sys, a: Action, r: string)
    requires Invariants.Inv(s) && Enabled(s, a) && !a.Crash? && HasGroup(s.engine, r)
    ensures HasGroup(Do(s, a).engine, r)
  {
    hide Invariants.Inv, Do, Enabled;
    Runs.StepHolds(s, a, r);
  }

  /** Everything known about one step of a tame run. */
  lemma TameAt(states: seq<Sys>, actions: seq<Action>, hist: History, ns: seq<Counts>, k: nat)
    requires TameRun(states, actions, hist, ns) && Ready(states[0], hist, ns[0]) && k < |actions|
    ensures k + 1 < |states| == |ns| && Enabled(states[k], actions[k]) && states[k + 1] == Do(states[k], actions[k])
    ensures Linear(hist, states[k].user) && ns[k].Keys == hist.rooms.Keys == ns[k + 1].Keys
    ensures Ready(states[k], hist, ns[k]) && Tame(states[k], actions[k], hist, ns[k], ns[k + 1])
  {
    hide Ready, Tame, Do, Enabled, Linear;
    RunOverlaps(states, actions, hist, ns, k);
  }

  lemma BeginIs(s: Sys, p: nat)
    requires Enabled(s, PassBegin(p))
    ensures p !in s.passes && Do(s, PassBegin(p)) == DoPassBegin(s, p)
  {
    hide DoPassBegin;
  }

  lemma HeldThroughout(states: seq<Sys>, actions: seq<Action>, hist: History, ns: seq<Counts>, p: nat, a: nat, b: nat,
      k: nat, r: string)
    requires TameRun(states, actions, hist, ns) && Ready(states[0], hist, ns[0])
    requires WholePass(states, actions, p, a, b) && a < k <= b && HasGroup(states[a].engine, r)
    ensures HasGroup(states[k].engine, r)
    decreases k
  {
    hide Overlapping, Tame, TameRun, Do, Enabled, Linear, Invariants.Inv, HasGroup;
    if k > a + 1 {
      HeldThroughout(states, actions, hist, ns, p, a, b, k - 1, r);
    }
    TameAt(states, actions, hist, ns, k - 1);
    HeldStays(states[k - 1], actions[k - 1], r);
  }

  lemma {:induction false} CoversUntil(states: seq<Sys>, actions: seq<Action>, hist: History, ns: seq<Counts>, p: nat,
      a: nat, b: nat, k: nat, r: string)
    requires TameRun(states, actions, hist, ns) && Ready(states[0], hist, ns[0])
    requires WholePass(states, actions, p, a, b) && a < k <= b
    requires r in hist.rooms && r in ns[a] && HasGroup(states[a].engine, r)
    ensures Covers(states[k], hist, p, r, ns[a][r])
    decreases k
  {
    hide Overlapping, Tame, TameRun, Do, Enabled, Linear, Invariants.Inv, HasGroup, Covers;
    TameAt(states, actions, hist, ns, k - 1);
    if k == a + 1 {
      BeginIs(states[a], p);
      BeginCovers(states[a], hist, ns[a], p, r);
    } else {
      CoversUntil(states, actions, hist, ns, p, a, b, k - 1, r);
      HeldThroughout(states, actions, hist, ns, p, a, b, k - 1, r);
      CoversStep(states[k - 1], actions[k - 1], hist, ns[k - 1], ns[k], p, r, ns[a][r]);
    }
  }

  /** What the device has made of a room once everything stored up to `upTo` was
      worked: the group is past its commits; every foreign message since the join is
      readable with its true text, or some pass is about to write it, or a crash took
      it out of a pass's hand, or its load or its write failed; and no earlier one is
      readable. */
  ghost predicate CaughtUpTo(s: Sys, hist: History, r: string, upTo: nat)
  {
    && r in hist.rooms && r in hist.joinAt && upTo <= |hist.rooms[r]| && HasGroup(s.engine, r)
    && var h, j := hist.rooms[r], hist.joinAt[r];
       && s.engine.device.groups[r].epoch >= Max(j, Commits(h[..upTo]))
       && forall i: nat | i < upTo && h[i].ty == Encrypted && h[i].sender != s.user ::
            && h[i].eventId in s.db.events && s.db.events[h[i].eventId].ev == h[i]
            && if SinceJoin(h, i, j)
               then s.db.events[h[i].eventId].decrypted == CipherOf(h[i]).text || h[i].eventId in InHand(s.passes)
                 || h[i].eventId in s.lost || h[i].eventId in s.missed
               else s.db.events[h[i].eventId].decrypted.None?
  }

  /** A group that is not past all commits still has one to wait for. */
  lemma NextCommitWaits(s: Sys, hist: History, n: Counts, r: string, upTo: nat) returns (c: nat)
    requires Overlapping(s, hist, n) && r in hist.rooms && r in hist.joinAt && upTo <= |hist.rooms[r]|
    requires EpochIn(s.engine, r, hist.joinAt[r]) < Commits(hist.rooms[r][..upTo])
    ensures c < upTo && Waiting(s, hist, r, c)
  {
    hide Linear, RoomsStand, PassesStand, RowsKnown, OriginsApart, Out, Commits, EpochIn;
    RoomOf(s, hist, n, r);
    c := LeftBy(hist.rooms[r], upTo, EpochIn(s.engine, r, hist.joinAt[r]));
  }

  /** When nothing waits, the group is past all commits. */
  lemma NoneWaitsEpoch(s: Sys, hist: History, n: Counts, r: string, upTo: nat)
    requires Overlapping(s, hist, n) && r in hist.rooms && r in hist.joinAt && upTo <= |hist.rooms[r]|
    requires forall i: nat | i < upTo :: !Waiting(s, hist, r, i)
    ensures EpochIn(s.engine, r, hist.joinAt[r]) >= Max(hist.joinAt[r], Commits(hist.rooms[r][..upTo]))
  {
    hide Overlapping, Waiting, Commits, EpochIn;
    RoomOf(s, hist, n, r);
    if EpochIn(s.engine, r, hist.joinAt[r]) < Commits(hist.rooms[r][..upTo]) {
      var c := NextCommitWaits(s, hist, n, r, upTo);
    }
  }

  lemma WorkedIsCaughtUp(s: Sys, hist: History, n: Counts, p: nat, r: string, upTo: nat)
    requires Overlapping(s, hist, n) && r in hist.rooms && r in hist.joinAt && HasGroup(s.engine, r)
    requires r in n && upTo <= n[r] <= |hist.rooms[r]| && p !in s.passes && Covers(s, hist, p, r, upTo)
    ensures CaughtUpTo(s, hist, r, upTo)
  {
    hide Linear, RoomsStand, PassesStand, RowsKnown, OriginsApart, InHand, CipherOf, KeyOf;
    var h, j := hist.rooms[r], hist.joinAt[r];
    forall i: nat | i < upTo ensures !Waiting(s, hist, r, i) {
      assert !InFront([], 0, h[i].eventId);
    }
    NoneWaitsEpoch(s, hist, n, r, upTo);
    RoomOf(s, hist, n, r);
    forall i: nat | i < upTo && h[i].ty == Encrypted && h[i].sender != s.user
      ensures RowStands(s.db, Out(s), EpochIn(s.engine, r, j), SpentIn(s.engine, r), h, j, n[r], i)
      ensures !Waiting(s, hist, r, i)
    {
      assert Important(h[i], s.user);
    }
  }

  lemma CountsGrow(s: Sys, a: Action, hist: History, n: Counts, n': Counts, r: string)
    requires Linear(hist, s.user) && n.Keys == hist.rooms.Keys && Enabled(s, a)
             && Tame(s, a, hist, n, n') && r in hist.rooms
    ensures n[r] <= n'[r]
  {
    hide Linear, Enabled;
  }

  lemma StoredGrows(states: seq<Sys>, actions: seq<Action>, hist: History, ns: seq<Counts>, a: nat, b: nat, r: string)
    requires TameRun(states, actions, hist, ns) && Ready(states[0], hist, ns[0])
    requires a <= b < |states| && r in hist.rooms
    ensures r in hist.joinAt && r in ns[a] && r in ns[b] && ns[a][r] <= ns[b][r] <= |hist.rooms[r]|
    decreases b
  {
    hide Overlapping, Linear, Do, Enabled, Tame, Invariants.Inv;
    RunOverlaps(states, actions, hist, ns, b);
    RoomOf(states[b], hist, ns[b], r);
    if a < b {
      StoredGrows(states, actions, hist, ns, a, b - 1, r);
      TameAt(states, actions, hist, ns, b - 1);
      CountsGrow(states[b - 1], actions[b - 1], hist, ns[b - 1], ns[b], r);
    }
  }

  /** However passes, sync loops, sends, failing writes and crashes overlap in a tame
      run, every pass that ends has caught up, in every room held when it began, with
      all that was stored then. */
  lemma EveryWholePassCatchesUp(states: seq<Sys>, actions: seq<Action>, hist: History, ns: seq<Counts>, p: nat,
      a: nat, b: nat, r: string)
    requires TameRun(states, actions, hist, ns) && Ready(states[0], hist, ns[0])
    requires WholePass(states, actions, p, a, b) && r in hist.rooms && r in ns[a] && HasGroup(states[a].engine, r)
    ensures CaughtUpTo(states[b], hist, r, ns[a][r])
  {
    hide Overlapping, Tame, Do, Enabled, Linear, Invariants.Inv, Covers, CaughtUpTo;
    StoredGrows(states, actions, hist, ns, a, b, r);
    HeldThroughout(states, actions, hist, ns, p, a, b, b, r);
    CoversUntil(states, actions, hist, ns, p, a, b, b, r);
    RunOverlaps(states, actions, hist, ns, b);
    WorkedIsCaughtUp(states[b], hist, ns[b], p, r, ns[a][r]);
  }

  /** And a group is never before the join nor past the stored commits. */
  lemma EpochNeverAhead(states: seq<Sys>, actions: seq<Action>, hist: History, ns: seq<Counts>, i: nat, r: string)
    requires TameRun(states, actions, hist, ns) && Ready(states[0], hist, ns[0])
    requires i < |states| && r in hist.rooms && HasGroup(states[i].engine, r)
    ensures r in hist.joinAt && r in ns[i] && ns[i][r] <= |hist.rooms[r]|
    ensures hist.joinAt[r] <= states[i].engine.device.groups[r].epoch
              <= Max(hist.joinAt[r], Commits(hist.rooms[r][..ns[i][r]]))
  {
    hide Tame, Do, Enabled, Invariants.Inv, LinearAt, PassStands, RowsKnown, RowsStand, OriginsApart;
    StoredGrows(states, actions, hist, ns, i, i, r);
    RunOverlaps(states, actions, hist, ns, i);
    RoomOf(states[i], hist, ns[i], r);
  }
}
