/** Catching up while passes overlap with each other, with the sync loops, with
    failing writes and with crashes: what is left of epoch tracking when every call
    interleaves. */
module Overlap {
  import opened Base
  import opened Order
  import opened Mls
  import opened Events
  import opened T = Tables
  import opened Inbound
  import opened Flush
  import opened Sync
  import opened Machine
  import opened EpochTracking
  import CurrentState
  import Invariants
  import Steps
  import Frames
  import Runs

  // --- Where an event stands ---------------------------------------------------------

  predicate SinceJoin(h: seq<Event>, i: nat, j: nat)
    requires i <= |h|
  {
    Commits(h[..i]) >= j
  }

  /** The texts that left the engine for somewhere else than the store: in a pass's
      hand, lost to a crash, or missed for a failed load or write. */
  function Out(s: Sys): set<string>
  {
    InHand(s.passes) + s.lost + s.missed
  }

  predicate Kept(db: Db, out: set<string>, ev: Event)
  {
    ev.eventId in out || (ev.eventId in db.events && db.events[ev.eventId].decrypted == CipherOf(ev).text)
  }

  /** The epoch of the room's group; a group not held yet will start at `j`. */
  function EpochIn(e: Engine, r: string, j: nat): nat
  {
    if HasGroup(e, r) then e.device.groups[r].epoch else j
  }

  function SpentIn(e: Engine, r: string): set<Key>
  {
    if HasGroup(e, r) then e.device.groups[r].spent else {}
  }

  /** Event `i` was sealed or committed since the join and is still to be worked: a
      commit the group is not past, a message not opened. */
  predicate Pending(db: Db, out: set<string>, epoch: nat, h: seq<Event>, j: nat, i: nat)
    requires i < |h|
  {
    SinceJoin(h, i, j) && if h[i].ty == MlsCommit then Commits(h[..i]) >= epoch else !Kept(db, out, h[i])
  }

  /** Where important event `i` stands when the room's events are stored up to `n`:
      while it is to be worked, the group can still get to it. */
  ghost predicate RowStands(db: Db, out: set<string>, epoch: nat, spent: set<Key>, h: seq<Event>, j: nat, n: nat,
      i: nat)
    requires i < |h|
  {
    var id := h[i].eventId;
    && (id in db.events <==> i < n)
    && (i < n ==> db.events[id].ev == h[i])
    && (Pending(db, out, epoch, h, j, i) ==>
          && Commits(h[..i]) >= epoch
          && (i < n ==> db.events[id].state == Untried)
          && (h[i].ty == Encrypted ==> KeyOf(CipherOf(h[i])) !in spent && (i < n ==> db.events[id].decrypted.None?)))
    && (i < n && h[i].ty == Encrypted && !SinceJoin(h, i, j) ==> db.events[id].decrypted.None?)
  }

  ghost predicate RowsStand(db: Db, out: set<string>, epoch: nat, spent: set<Key>, user: string, h: seq<Event>,
      j: nat, n: nat)
  {
    forall i: nat | i < |h| && Important(h[i], user) :: RowStands(db, out, epoch, spent, h, j, n, i)
  }

  ghost predicate EpochStands(epoch: nat, h: seq<Event>, j: nat, n: nat)
  {
    n <= |h| && j <= epoch <= Max(j, Commits(h[..n]))
  }

  ghost predicate RoomStands(s: Sys, hist: History, n: Counts, r: string)
    requires r in hist.rooms && r in hist.joinAt && r in n
  {
    var h, j := hist.rooms[r], hist.joinAt[r];
    && EpochStands(EpochIn(s.engine, r, j), h, j, n[r])
    && RowsStand(s.db, Out(s), EpochIn(s.engine, r, j), SpentIn(s.engine, r), s.user, h, j, n[r])
  }

  /** Important event `i` of room `r` is still to be worked. */
  predicate Waiting(s: Sys, hist: History, r: string, i: nat)
  {
    && r in hist.rooms && r in hist.joinAt && i < |hist.rooms[r]| && Important(hist.rooms[r][i], s.user)
    && Pending(s.db, Out(s), EpochIn(s.engine, r, hist.joinAt[r]), hist.rooms[r], hist.joinAt[r], i)
  }

  // --- What the passes have ahead ----------------------------------------------------

  predicate InFront(todo: seq<MlsItem>, k: int, id: string)
  {
    exists l :: 0 <= l < k && l < |todo| && todo[l].id == id
  }

  /** Working `x` would take the group past `i`, or shows that it is past it. */
  predicate Behind(h: seq<Event>, i: nat, x: nat)
  {
    i < x < |h| && Commits(h[..i]) < Commits(h[..x + 1])
  }

  /** If item `k` is still to be worked, everything of its room that it would leave
      behind is in front of it. */
  ghost predicate NoneMissing(s: Sys, hist: History, todo: seq<MlsItem>, k: nat)
    requires k < |todo|
  {
    todo[k].id in hist.at ==>
      var Place(r, x) := hist.at[todo[k].id];
      Waiting(s, hist, r, x) ==>
        forall i: nat | Waiting(s, hist, r, i) && Behind(hist.rooms[r], i, x) ::
          InFront(todo, k, hist.rooms[r][i].eventId)
  }

  ghost predicate TodoKnown(hist: History, user: string, todo: seq<MlsItem>)
    requires Linear(hist, user)
  {
    && (forall k: nat | k < |todo| :: KnownItem(hist, user, todo[k]))
    && (forall k: nat, l: nat | k < l < |todo| && todo[k].id in hist.at && todo[l].id in hist.at ::
          hist.at[todo[k].id].room == hist.at[todo[l].id].room ==> hist.at[todo[k].id].i < hist.at[todo[l].id].i)
  }

  ghost predicate TodoComplete(s: Sys, hist: History, todo: seq<MlsItem>)
  {
    forall k: nat | k < |todo| && todo[k].id in hist.at && HasGroup(s.engine, hist.at[todo[k].id].room) ::
      NoneMissing(s, hist, todo, k)
  }

  /** The item was worked, and its text is one sealed since the join. */
  ghost predicate Worked(s: Sys, hist: History, item: MlsItem, text: Option<string>)
  {
    item.id in hist.at ==>
      var Place(r, x) := hist.at[item.id];
      && !Waiting(s, hist, r, x)
      && (text.Some? && r in hist.rooms && r in hist.joinAt && x < |hist.rooms[r]| ==>
            SinceJoin(hist.rooms[r], x, hist.joinAt[r]))
  }

  ghost predicate StageStands(s: Sys, hist: History, p: Pass)
    requires p.todo != []
  {
    && (!p.stage.Check? ==> HasGroup(s.engine, p.todo[0].room))
    && (p.stage.Own? ==> p.todo[0].MessageItem? && p.todo[0].sender == s.user)
    && (p.stage.Write? ==> Worked(s, hist, p.todo[0], p.stage.text))
  }

  ghost predicate PassStands(s: Sys, hist: History, p: Pass)
    requires Linear(hist, s.user)
  {
    p.todo != [] && TodoKnown(hist, s.user, p.todo) && TodoComplete(s, hist, p.todo) && StageStands(s, hist, p)
  }

  /** The only inbound MLS rows are the history's and our own messages. */
  ghost predicate RowsKnown(db: Db, hist: History, user: string, n: Counts)
    requires Linear(hist, user) && n.Keys == hist.rooms.Keys
  {
    forall id | id in db.events && Unhandled(db.events[id]) && ItemOf(db.events[id]).Some? ::
      if id in hist.at then db.events[id].ev == EventAt(hist, id) && hist.at[id].i < n[hist.at[id].room]
      else OwnItem(user, ItemOf(db.events[id]).value)
  }

  /** No event of our own making is one a pass must get right. */
  ghost predicate OriginsApart(origin: map<string, TxnKey>, hist: History, user: string)
    requires Linear(hist, user)
  {
    forall id | id in origin && id in hist.at :: !Important(EventAt(hist, id), user)
  }

  ghost predicate Shape(s: Sys, hist: History, n: Counts)
  {
    && Linear(hist, s.user) && n.Keys == hist.rooms.Keys
    && (forall id | id in hist.at :: !IsLocal(id))
    && s.engine.device.user == s.user
  }

  ghost predicate RoomsStand(s: Sys, hist: History, n: Counts)
    requires Linear(hist, s.user) && n.Keys == hist.rooms.Keys
  {
    forall r | r in hist.rooms :: RoomStands(s, hist, n, r)
  }

  ghost predicate PassesStand(s: Sys, hist: History)
    requires Linear(hist, s.user)
  {
    forall p | p in s.passes :: PassStands(s, hist, s.passes[p])
  }

  ghost predicate Overlapping(s: Sys, hist: History, n: Counts)
  {
    && Shape(s, hist, n)
    && RoomsStand(s, hist, n)
    && PassesStand(s, hist)
    && RowsKnown(s.db, hist, s.user, n)
    && OriginsApart(s.origin, hist, s.user)
  }

  // --- Runs in which catching up survives ------------------------------------------------

  predicate OwnEvent(user: string, ev: Event)
  {
    ItemOf(NewRow(ev)).Some? ==> OwnItem(user, ItemOf(NewRow(ev)).value)
  }

  /** A batch brings events of a gap-free prefix of each history, in any order and
      with any repetitions, and otherwise no MLS material but our own messages. */
  ghost predicate Brings(hist: History, user: string, n: Counts, evs: seq<Event>, n': Counts)
    requires Linear(hist, user) && n.Keys == hist.rooms.Keys == n'.Keys
  {
    && (forall r | r in hist.rooms :: n[r] <= n'[r] <= |hist.rooms[r]|)
    && (forall k | 0 <= k < |evs| ::
          if evs[k].eventId in hist.at
          then evs[k] == EventAt(hist, evs[k].eventId) && hist.at[evs[k].eventId].i < n'[hist.at[evs[k].eventId].room]
          else OwnEvent(user, evs[k]))
    && (forall r, i: nat | r in hist.rooms && n[r] <= i < n'[r] && i < |hist.rooms[r]|
         && Important(hist.rooms[r][i], user) ::
          CurrentState.Mentions(evs, hist.rooms[r][i].eventId))
  }

  ghost predicate BatchBrings(s: Sys, hist: History, n: Counts, ws: seq<Wire>, n': Counts)
    requires Linear(hist, s.user) && n.Keys == hist.rooms.Keys == n'.Keys
  {
    match ParseAll(ws)
    case Malformed(_) => n' == n
    case Ok(evs) => Brings(hist, s.user, n, evs, n')
  }

  /** No pass has an event of the room ahead that would leave behind one it has
      skipped, both still to be worked. */
  ghost predicate NoneSkipped(s: Sys, hist: History, r: string)
  {
    forall p, k: nat | p in s.passes && k < |s.passes[p].todo| && s.passes[p].todo[k].id in hist.at ::
      hist.at[s.passes[p].todo[k].id].room == r ==> NoneMissing(s, hist, s.passes[p].todo, k)
  }

  /** A Welcome joins a room of the history at the epoch of the commit that added
      this device: anew, when no pass has skipped what it would leave behind, or
      again, when the group is still at that epoch. */
  ghost predicate JoinsInTime(s: Sys, w: Welcome, hist: History, r: string)
    requires r in hist.joinAt && w.Invitation?
  {
    && w.epoch == hist.joinAt[r]
    && if HasGroup(s.engine, r) then s.engine.device.groups[r].epoch == hist.joinAt[r] else NoneSkipped(s, hist, r)
  }

  /** Any load or write may fail, except the load for a commit that applies; crashes
      find memory and keystore agreeing; this device adds nobody to the rooms of the
      history; batches are gap-free; and Welcomes come in time. */
  ghost predicate Tame(s: Sys, a: Action, hist: History, n: Counts, n': Counts)
    requires Linear(hist, s.user) && n.Keys == hist.rooms.Keys && Enabled(s, a)
  {
    && n'.Keys == hist.rooms.Keys
    && match a
       case LoopFold(p) => BatchBrings(s, hist, n, Batch(s.loops[p].resp.rooms), n')
       case Backfill(ws) => BatchBrings(s, hist, n, ws, n')
       case PassStep(p, io) =>
         n' == n && (s.passes[p].stage == Work ==> CommitLoads(s.engine, s.passes[p].todo[0], io))
       case CreateRoomGroup(room, _) => room !in hist.rooms && n' == n
       case Invite(room, _, _, _) => room !in hist.rooms && n' == n
       case ServerTake(_, id, _, _) => (id in hist.at ==> !Important(EventAt(hist, id), s.user)) && n' == n
       case LoopJoin(p, accept, _) =>
         && n' == n
         && forall r | r in hist.rooms && Runs.Acquires(s, a, r) ::
              JoinsInTime(s, ToDeviceOf(s.loops[p].resp)[s.loops[p].i].welcome.value, hist, r)
       case Crash => s.engine.device == s.engine.saved && n' == n
       case _ => n' == n
  }

  // --- Histories ---------------------------------------------------------------------------

  /** Distinct messages of a history have distinct keys. */
  ghost predicate KeysDiffer(h: seq<Event>)
  {
    forall k, l | 0 <= k < l < |h| && h[k].ty == Encrypted && h[l].ty == Encrypted ::
        KeyOf(CipherOf(h[k])) != KeyOf(CipherOf(h[l]))
  }

  /** Every epoch below the one reached was left by a commit. */
  lemma {:induction false} LeftBy(h: seq<Event>, x: nat, epoch: nat) returns (c: nat)
    requires x <= |h| && epoch < Commits(h[..x])
    ensures c < x && h[c].ty == MlsCommit && Commits(h[..c]) == epoch
    decreases x
  {
    assert x > 0 by { assert h[..0] == []; }
    CommitsNext(h, x - 1);
    if epoch < Commits(h[..x - 1]) {
      c := LeftBy(h, x - 1, epoch);
    } else {
      c := x - 1;
    }
  }

  lemma IdsOfRoom(hist: History, user: string, r: string, i: nat)
    requires Linear(hist, user) && r in hist.rooms && i < |hist.rooms[r]|
    ensures hist.rooms[r][i].eventId in hist.at && hist.at[hist.rooms[r][i].eventId] == Place(r, i)
    ensures forall k | 0 <= k < |hist.rooms[r]| && k != i :: hist.rooms[r][k].eventId != hist.rooms[r][i].eventId
    ensures KeysDiffer(hist.rooms[r]) && LinearAt(hist.rooms[r], i, r, user)
  {
    forall k | 0 <= k < |hist.rooms[r]| && k != i ensures hist.rooms[r][k].eventId != hist.rooms[r][i].eventId {
      assert hist.at[hist.rooms[r][k].eventId] == Place(r, k);
    }
  }

  // --- The engine call ---------------------------------------------------------------------

  function WorkEngine(e: Engine, user: string, item: MlsItem, io: Io): Engine
  {
    match item
    case MessageItem(_, room, _, cipher) => Decrypt(e, room, cipher, io).0
    case CommitItem(_, room, sender, commit) => if sender != user then ProcessCommit(e, room, commit, io).0 else e
  }

  function WorkText(e: Engine, item: MlsItem, io: Io): Option<string>
  {
    if item.MessageItem? then Decrypt(e, item.room, item.cipher, io).1 else None
  }

  /** What the call takes out of the engine. */
  function WorkOut(e: Engine, item: MlsItem, io: Io): set<string>
  {
    MissedBy(e, item, io) + if WorkText(e, item, io).Some? then {item.id} else {}
  }

  lemma OwnChangesNothing(e: Engine, user: string, item: MlsItem, io: Io)
    requires OwnItem(user, item) && e.device.user == user
    ensures WorkEngine(e, user, item, io) == e && WorkText(e, item, io) == None && MissedBy(e, item, io) == {}
  {
  }

  lemma WorkElsewhere(e: Engine, user: string, item: MlsItem, io: Io)
    ensures var e' := WorkEngine(e, user, item, io);
            && e'.device.user == e.device.user && e'.device.groups.Keys == e.device.groups.Keys
            && forall r | HasGroup(e, r) && r != item.room :: e'.device.groups[r] == e.device.groups[r]
    ensures WorkOut(e, item, io) <= {item.id}
  {
  }

  lemma MessageWork(e: Engine, user: string, item: MlsItem, io: Io, h: seq<Event>, x: nat, r: string)
    requires ItemFor(item, h, x, r, user) && item.MessageItem? && HasGroup(e, r)
    requires e.device.user == user && item.sender != user
    ensures var e', g, c := WorkEngine(e, user, item, io), e.device.groups[r], CipherOf(h[x]);
            && e'.device.groups[r].epoch == g.epoch
            && e'.device.groups[r].spent <= g.spent + {KeyOf(c)}
            && WorkOut(e, item, io) == (if g.epoch == c.epoch && KeyOf(c) !in g.spent then {item.id} else {})
            && (e'.device.groups[r].spent == g.spent || item.id in WorkOut(e, item, io))
            && (WorkText(e, item, io).Some? ==> g.epoch == c.epoch)
  {
  }

  lemma CommitWork(e: Engine, user: string, item: MlsItem, io: Io, h: seq<Event>, x: nat, r: string)
    requires ItemFor(item, h, x, r, user) && item.CommitItem? && HasGroup(e, r) && e.device.user == user
    requires CommitLoads(e, item, io)
    ensures var g, g' := e.device.groups[r], WorkEngine(e, user, item, io).device.groups[r];
            && g'.spent == g.spent && g'.epoch == (if g.epoch == Commits(h[..x]) then g.epoch + 1 else g.epoch)
            && WorkOut(e, item, io) == {} && WorkText(e, item, io).None?
  {
  }

  // --- Rows and the engine call ---------------------------------------------------------------

  /** Nothing that waits would be left behind by working `x`. */
  ghost predicate NothingBehind(db: Db, out: set<string>, epoch: nat, user: string, h: seq<Event>, j: nat, x: nat)
  {
    forall i: nat | i < |h| && Important(h[i], user) && Pending(db, out, epoch, h, j, i) :: !Behind(h, i, x)
  }

  /** A waiting event with nothing waiting behind it is at the group's epoch. */
  lemma TurnHasCome(db: Db, out: set<string>, epoch: nat, spent: set<Key>, user: string, h: seq<Event>, j: nat,
      n: nat, x: nat)
    requires RowsStand(db, out, epoch, spent, user, h, j, n) && x < |h| && Important(h[x], user) && j <= epoch
    requires Pending(db, out, epoch, h, j, x) && NothingBehind(db, out, epoch, user, h, j, x)
    ensures Commits(h[..x]) == epoch && (h[x].ty == Encrypted ==> KeyOf(CipherOf(h[x])) !in spent)
  {
    hide Kept, KeyOf, CipherOf;
    assert RowStands(db, out, epoch, spent, h, j, n, x);
    CommitsGrow(h, x, x + 1);
    if epoch < Commits(h[..x]) {
      var c := LeftBy(h, x, epoch);
    }
  }

  /** Less waits once more is out. */
  lemma OutGrows(db: Db, out: set<string>, out': set<string>, epoch: nat, spent: set<Key>, user: string,
      h: seq<Event>, j: nat, n: nat)
    requires RowsStand(db, out, epoch, spent, user, h, j, n) && out <= out'
    ensures RowsStand(db, out', epoch, spent, user, h, j, n)
  {
    hide Commits, CipherOf;
    forall i: nat | i < |h| && Important(h[i], user) ensures RowStands(db, out', epoch, spent, h, j, n, i) {
      assert RowStands(db, out, epoch, spent, h, j, n, i);
    }
  }

  lemma MessageOut(db: Db, out: set<string>, out': set<string>, epoch: nat, spent: set<Key>, spent': set<Key>,
      user: string, h: seq<Event>, j: nat, n: nat, x: nat)
    requires RowsStand(db, out, epoch, spent, user, h, j, n) && out <= out' && KeysDiffer(h)
    requires x < |h| && h[x].ty == Encrypted && h[x].eventId in out' && spent' <= spent + {KeyOf(CipherOf(h[x]))}
    ensures RowsStand(db, out', epoch, spent', user, h, j, n)
  {
    hide Commits, CipherOf, KeyOf;
    forall i: nat | i < |h| && Important(h[i], user) ensures RowStands(db, out', epoch, spent', h, j, n, i) {
      assert RowStands(db, out, epoch, spent, h, j, n, i);
    }
  }

  /** The group moves past a commit with nothing waiting behind it. */
  lemma CommitApplied(db: Db, out: set<string>, epoch: nat, spent: set<Key>, user: string, h: seq<Event>, j: nat,
      n: nat, x: nat)
    requires RowsStand(db, out, epoch, spent, user, h, j, n) && EpochStands(epoch, h, j, n)
    requires x < n && h[x].ty == MlsCommit && Commits(h[..x]) == epoch
    requires NothingBehind(db, out, epoch, user, h, j, x)
    ensures RowsStand(db, out, epoch + 1, spent, user, h, j, n) && EpochStands(epoch + 1, h, j, n)
  {
    hide Kept, CipherOf, KeyOf;
    CommitsNext(h, x);
    CommitsGrow(h, x + 1, n);
    forall i: nat | i < |h| && Important(h[i], user) ensures RowStands(db, out, epoch + 1, spent, h, j, n, i) {
      assert RowStands(db, out, epoch, spent, h, j, n, i);
      if Pending(db, out, epoch + 1, h, j, i) {
        if i > x {
          CommitsGrow(h, x + 1, i);
        } else {
          assert !Behind(h, i, x);
        }
      }
    }
  }

  // --- A pass at work ------------------------------------------------------------------------

  /** Whose hands hold what after the engine call. */
  lemma HandsAfterWork(passes: map<nat, Pass>, p: nat, text: Option<string>)
    requires p in passes && passes[p].todo != [] && passes[p].stage == Work
    ensures InHand(passes[p := passes[p].(stage := Write(text))])
            == InHand(passes) + (if text.Some? then {passes[p].todo[0].id} else {})
  {
    var passes' := passes[p := passes[p].(stage := Write(text))];
    forall id ensures id in InHand(passes') <==> id in InHand(passes) || (text.Some? && id == passes[p].todo[0].id) {
      if id in InHand(passes) {
        var q :| q in passes && passes[q].todo != [] && passes[q].stage.Write? && passes[q].stage.text.Some?
            && passes[q].todo[0].id == id;
        assert q != p && passes'[q] == passes[q];
      }
      if text.Some? && id == passes[p].todo[0].id {
        assert passes'[p].todo[0].id == id;
      }
    }
  }

  ghost predicate AtWork(s: Sys, hist: History, n: Counts, p: nat, io: Io)
  {
    && Overlapping(s, hist, n) && p in s.passes && s.passes[p].todo != [] && s.passes[p].stage == Work
    && s.passes[p].todo[0].id in s.db.events && CommitLoads(s.engine, s.passes[p].todo[0], io)
  }

  lemma WorkIs(s: Sys, p: nat, io: Io)
    requires p in s.passes && s.passes[p].todo != [] && s.passes[p].stage == Work
    ensures var s', item := DoWork(s, p, io), s.passes[p].todo[0];
            && s' == s.(engine := s'.engine, passes := s'.passes, unsealed := s'.unsealed, missed := s'.missed)
            && s'.engine == WorkEngine(s.engine, s.user, item, io)
            && s'.passes == s.passes[p := s.passes[p].(stage := Write(WorkText(s.engine, item, io)))]
            && Out(s') == Out(s) + WorkOut(s.engine, item, io)
  {
    hide InHand, Decrypt, ProcessCommit;
    HandsAfterWork(s.passes, p, WorkText(s.engine, s.passes[p].todo[0], io));
  }

  lemma PassItem(s: Sys, hist: History, n: Counts, p: nat)
    requires Overlapping(s, hist, n) && p in s.passes
    ensures s.passes[p].todo != [] && KnownItem(hist, s.user, s.passes[p].todo[0])
             && PassStands(s, hist, s.passes[p])
  {
    hide Linear, RoomsStand, RowsKnown, OriginsApart, KnownItem, TodoComplete, StageStands;
    assert PassStands(s, hist, s.passes[p]);
  }

  /** At work on a waiting item, nothing waits behind it. */
  lemma FirstMissesNone(s: Sys, hist: History, n: Counts, p: nat, r: string, x: nat)
    requires Overlapping(s, hist, n) && p in s.passes && s.passes[p].todo != []
    requires var item := s.passes[p].todo[0]; item.id in hist.at && hist.at[item.id] == Place(r, x)
    requires HasGroup(s.engine, r) && Waiting(s, hist, r, x)
    ensures var h, j := hist.rooms[r], hist.joinAt[r];
            NothingBehind(s.db, Out(s), EpochIn(s.engine, r, j), s.user, h, j, x)
  {
    hide Linear, RoomsStand, RowsKnown, OriginsApart, KnownItem, StageStands, Out, Pending, Behind, Important, Commits,
        EpochIn;
    PassItem(s, hist, n, p);
    assert NoneMissing(s, hist, s.passes[p].todo, 0);
    var h, j := hist.rooms[r], hist.joinAt[r];
    forall i: nat | i < |h| && Important(h[i], s.user)
        && Pending(s.db, Out(s), EpochIn(s.engine, r, j), h, j, i)
      ensures !Behind(h, i, x)
    {
      assert Waiting(s, hist, r, i);
    }
  }

  lemma StoredIsBelow(s: Sys, hist: History, n: Counts, r: string, i: nat)
    requires Overlapping(s, hist, n) && r in hist.rooms && i < |hist.rooms[r]| && Important(hist.rooms[r][i], s.user)
    ensures i < n[r] <==> hist.rooms[r][i].eventId in s.db.events
  {
    hide LinearAt, PassesStand, RowsKnown, OriginsApart, Out, Pending, Commits, EpochIn, Important;
    assert RoomStands(s, hist, n, r);
    var h, j := hist.rooms[r], hist.joinAt[r];
    assert RowStands(s.db, Out(s), EpochIn(s.engine, r, j), SpentIn(s.engine, r), h, j, n[r], i);
  }

  ghost predicate WorksAt(s: Sys, hist: History, p: nat, r: string, x: nat)
    requires p in s.passes && s.passes[p].todo != []
  {
    && s.passes[p].todo[0].id in hist.at && hist.at[s.passes[p].todo[0].id] == Place(r, x)
    && r in hist.rooms && r in hist.joinAt && ItemFor(s.passes[p].todo[0], hist.rooms[r], x, r, s.user)
    && Important(hist.rooms[r][x], s.user) && HasGroup(s.engine, r)
  }

  lemma MessageInItsRoom(s: Sys, hist: History, n: Counts, p: nat, io: Io, r: string, x: nat)
    requires AtWork(s, hist, n, p, io) && WorksAt(s, hist, p, r, x) && s.passes[p].todo[0].MessageItem?
    ensures RoomStands(DoWork(s, p, io), hist, n, r) && !Waiting(DoWork(s, p, io), hist, r, x)
  {
    hide Linear, PassesStand, RowsKnown, OriginsApart, Out, RowsStand, CommitLoads, WorkEngine, WorkOut, WorkText,
        CipherOf, DoWork, EpochStands, Commits, KeyOf, NothingBehind;
    var h, j, item, s' := hist.rooms[r], hist.joinAt[r], s.passes[p].todo[0], DoWork(s, p, io);
    assert RoomStands(s, hist, n, r);
    WorkIs(s, p, io);
    WorkElsewhere(s.engine, s.user, item, io);
    MessageWork(s.engine, s.user, item, io, h, x, r);
    IdsOfRoom(hist, s.user, r, x);
    assert WorkOut(s.engine, item, io) == {} ==> Out(s') == Out(s);
    if item.id in Out(s') {
      MessageOut(s.db, Out(s), Out(s'), EpochIn(s.engine, r, j), SpentIn(s.engine, r), SpentIn(s'.engine, r), s.user,
        h, j, n[r], x);
    } else if Waiting(s, hist, r, x) {
      FirstMissesNone(s, hist, n, p, r, x);
      RoomOf(s, hist, n, r);
      TurnHasCome(s.db, Out(s), EpochIn(s.engine, r, j), SpentIn(s.engine, r), s.user, h, j, n[r], x);
    }
  }

  lemma RoomOf(s: Sys, hist: History, n: Counts, r: string)
    requires Overlapping(s, hist, n) && r in hist.rooms
    ensures r in hist.joinAt && RoomStands(s, hist, n, r)
    ensures hist.joinAt[r] <= EpochIn(s.engine, r, hist.joinAt[r]) && n[r] <= |hist.rooms[r]|
  {
    hide LinearAt, PassesStand, RowsKnown, OriginsApart, Out, RowsStand, Commits;
  }

  lemma CommitInItsRoom(s: Sys, hist: History, n: Counts, p: nat, io: Io, r: string, x: nat)
    requires AtWork(s, hist, n, p, io) && WorksAt(s, hist, p, r, x) && s.passes[p].todo[0].CommitItem?
    ensures RoomStands(DoWork(s, p, io), hist, n, r) && !Waiting(DoWork(s, p, io), hist, r, x)
  {
    hide Linear, PassesStand, RowsKnown, OriginsApart, Out, RowsStand, CommitLoads, WorkEngine, WorkOut, WorkText,
        DoWork, EpochStands, Commits, NothingBehind;
    var h, j, item, s' := hist.rooms[r], hist.joinAt[r], s.passes[p].todo[0], DoWork(s, p, io);
    var epoch := s.engine.device.groups[r].epoch;
    assert RoomStands(s, hist, n, r);
    WorkIs(s, p, io);
    WorkElsewhere(s.engine, s.user, item, io);
    CommitWork(s.engine, s.user, item, io, h, x, r);
    StoredIsBelow(s, hist, n, r, x);
    RoomOf(s, hist, n, r);
    assert Out(s') == Out(s);
    if Waiting(s, hist, r, x) {
      FirstMissesNone(s, hist, n, p, r, x);
      TurnHasCome(s.db, Out(s), epoch, SpentIn(s.engine, r), s.user, h, j, n[r], x);
      CommitApplied(s.db, Out(s), epoch, SpentIn(s.engine, r), s.user, h, j, n[r], x);
    } else {
      assert Commits(h[..x]) < epoch;
    }
  }

  lemma WorkInOtherRoom(s: Sys, hist: History, n: Counts, p: nat, io: Io, r: string)
    requires AtWork(s, hist, n, p, io) && r in hist.rooms && r in hist.joinAt
    requires r != s.passes[p].todo[0].room || WorkEngine(s.engine, s.user, s.passes[p].todo[0], io) == s.engine
    ensures RoomStands(DoWork(s, p, io), hist, n, r)
  {
    hide Linear, PassesStand, RowsKnown, OriginsApart, Out, RowsStand, CommitLoads, WorkEngine, WorkOut, WorkText,
        DoWork, EpochStands;
    var item := s.passes[p].todo[0];
    WorkIs(s, p, io);
    WorkElsewhere(s.engine, s.user, item, io);
    assert RoomStands(s, hist, n, r);
    OutGrows(s.db, Out(s), Out(s) + WorkOut(s.engine, item, io), EpochIn(s.engine, r, hist.joinAt[r]),
      SpentIn(s.engine, r), s.user, hist.rooms[r], hist.joinAt[r], n[r]);
  }

  /** An item that is none of the important events of the history is ours. */
  lemma OwnWork(s: Sys, hist: History, n: Counts, p: nat, io: Io)
    requires Overlapping(s, hist, n) && p in s.passes && s.passes[p].todo != []
    requires var id := s.passes[p].todo[0].id; id in hist.at ==> !Important(EventAt(hist, id), s.user)
    ensures var item := s.passes[p].todo[0];
            && OwnItem(s.user, item) && WorkEngine(s.engine, s.user, item, io) == s.engine
            && WorkText(s.engine, item, io) == None && WorkOut(s.engine, item, io) == {}
  {
    hide LinearAt, PassesStand, RoomsStand, RowsKnown, OriginsApart, WorkEngine, WorkText, MissedBy, StageStands,
        TodoComplete, Important, ItemFor, OwnItem;
    var item := s.passes[p].todo[0];
    PassItem(s, hist, n, p);
    if item.id in hist.at {
      HistoryItem(hist, s.user, item);
    }
    OwnChangesNothing(s.engine, s.user, item, io);
  }

  lemma WorkInItsRoom(s: Sys, hist: History, n: Counts, p: nat, io: Io, r: string, x: nat)
    requires AtWork(s, hist, n, p, io) && WorksAt(s, hist, p, r, x)
    ensures RoomStands(DoWork(s, p, io), hist, n, r)
    ensures Worked(DoWork(s, p, io), hist, s.passes[p].todo[0], WorkText(s.engine, s.passes[p].todo[0], io))
  {
    hide Linear, PassesStand, RoomsStand, RowsKnown, OriginsApart, Out, CommitLoads, WorkEngine, WorkText, WorkOut,
        DoWork, RoomStands, Pending, Waiting, CipherOf, KeyOf;
    var item := s.passes[p].todo[0];
    if item.MessageItem? {
      MessageInItsRoom(s, hist, n, p, io, r, x);
      MessageWork(s.engine, s.user, item, io, hist.rooms[r], x, r);
      RoomOf(s, hist, n, r);
    } else {
      CommitInItsRoom(s, hist, n, p, io, r, x);
      CommitWork(s.engine, s.user, item, io, hist.rooms[r], x, r);
    }
  }

  /** Every room after the engine call. */
  lemma WorkInRooms(s: Sys, hist: History, n: Counts, p: nat, io: Io)
    requires AtWork(s, hist, n, p, io)
    ensures RoomsStand(DoWork(s, p, io), hist, n)
    ensures Worked(DoWork(s, p, io), hist, s.passes[p].todo[0], WorkText(s.engine, s.passes[p].todo[0], io))
  {
    hide LinearAt, PassesStand, RowsKnown, OriginsApart, Out, CommitLoads, WorkEngine, WorkText, WorkOut,
        DoWork, KnownItem, TodoComplete, Important, ItemFor, OwnItem, RoomStands, Pending;
    var item := s.passes[p].todo[0];
    PassItem(s, hist, n, p);
    WorkIs(s, p, io);
    if item.id in hist.at && Important(EventAt(hist, item.id), s.user) {
      var Place(r, x) := hist.at[item.id];
      HistoryItem(hist, s.user, item);
      HistoryRoom(item, hist.rooms[r], x, r, s.user);
      WorkInItsRoom(s, hist, n, p, io, r, x);
      forall q | q in hist.rooms && q != r {
        WorkInOtherRoom(s, hist, n, p, io, q);
      }
    } else {
      OwnWork(s, hist, n, p, io);
      forall q | q in hist.rooms {
        WorkInOtherRoom(s, hist, n, p, io, q);
      }
    }
  }

  lemma HistoryRoom(item: MlsItem, h: seq<Event>, x: nat, r: string, user: string)
    requires ItemFor(item, h, x, r, user)
    ensures item.room == r && item.sender == h[x].sender
  {
  }

  /** Nothing waits that did not wait before, and the same groups are held. */
  ghost predicate Fewer(s: Sys, s': Sys, hist: History)
  {
    && s'.user == s.user && s.engine.device.groups.Keys <= s'.engine.device.groups.Keys
    && forall r, i: nat | Waiting(s', hist, r, i) :: Waiting(s, hist, r, i)
  }

  lemma MissesNoneStill(s: Sys, s': Sys, hist: History, todo: seq<MlsItem>, k: nat)
    requires k < |todo| && NoneMissing(s, hist, todo, k) && Fewer(s, s', hist)
    ensures NoneMissing(s', hist, todo, k)
  {
    hide Pending, Behind, InFront, Important;
    if todo[k].id in hist.at {
      var Place(r, x) := hist.at[todo[k].id];
      assert Waiting(s', hist, r, x) ==> Waiting(s, hist, r, x);
    }
  }

  lemma WorkedStill(s: Sys, s': Sys, hist: History, item: MlsItem, text: Option<string>)
    requires Worked(s, hist, item, text) && Fewer(s, s', hist)
    ensures Worked(s', hist, item, text)
  {
    hide Pending, SinceJoin, Important;
    if item.id in hist.at {
      var Place(r, x) := hist.at[item.id];
      assert Waiting(s', hist, r, x) ==> Waiting(s, hist, r, x);
    }
  }

  /** A pass stands as it did when less waits; of a room newly held nothing ahead
      may be missing. */
  lemma PassStill(s: Sys, s': Sys, hist: History, p: Pass)
    requires Linear(hist, s.user) && PassStands(s, hist, p) && Fewer(s, s', hist)
    requires forall k: nat | k < |p.todo| && p.todo[k].id in hist.at
             && HasGroup(s'.engine, hist.at[p.todo[k].id].room) ::
               HasGroup(s.engine, hist.at[p.todo[k].id].room) || NoneMissing(s, hist, p.todo, k)
    ensures PassStands(s', hist, p)
  {
    hide Linear, TodoKnown, Waiting, NoneMissing, Worked, Fewer;
    assert s'.user == s.user && s.engine.device.groups.Keys <= s'.engine.device.groups.Keys by { FewerHolds(s, s',
        hist); }
    forall k: nat | k < |p.todo| && p.todo[k].id in hist.at && HasGroup(s'.engine, hist.at[p.todo[k].id].room)
      ensures NoneMissing(s', hist, p.todo, k)
    {
      MissesNoneStill(s, s', hist, p.todo, k);
    }
    if p.stage.Write? {
      WorkedStill(s, s', hist, p.todo[0], p.stage.text);
    }
  }

  /** All of it holds after the step, which made nothing wait that did not. */
  ghost predicate Carries(s: Sys, s': Sys, hist: History, n': Counts)
  {
    Overlapping(s', hist, n') && Fewer(s, s', hist)
  }

  lemma FewerHolds(s: Sys, s': Sys, hist: History)
    requires Fewer(s, s', hist)
    ensures s'.user == s.user && s.engine.device.groups.Keys <= s'.engine.device.groups.Keys
  {
  }

  /** The same rooms are held, so all passes stand that stood. */
  lemma PassesStill(s: Sys, s': Sys, hist: History)
    requires Linear(hist, s.user) && PassesStand(s, hist) && Fewer(s, s', hist)
    requires forall r | r in hist.rooms && HasGroup(s'.engine, r) :: HasGroup(s.engine, r)
    ensures forall q | q in s.passes :: PassStands(s', hist, s.passes[q])
  {
    hide LinearAt, PassStands, Waiting, Fewer, Worked, NoneMissing;
    FewerHolds(s, s', hist);
    forall q | q in s.passes ensures PassStands(s', hist, s.passes[q]) {
      assert PassStands(s, hist, s.passes[q]);
      PassStill(s, s', hist, s.passes[q]);
    }
  }

  /** Waiting depends on one row, on what is out and on the epoch. */
  lemma FewerWaits(db: Db, db': Db, out: set<string>, out': set<string>, epoch: nat, epoch': nat, h: seq<Event>,
      j: nat, i: nat)
    requires i < |h| && epoch <= epoch' && (Kept(db, out, h[i]) ==> Kept(db', out', h[i]))
    requires Pending(db', out', epoch', h, j, i)
    ensures Pending(db, out, epoch, h, j, i)
  {
    hide Kept, Commits;
  }

  lemma WorkRaises(e: Engine, user: string, item: MlsItem, io: Io, r: string, j: nat)
    ensures EpochIn(e, r, j) <= EpochIn(WorkEngine(e, user, item, io), r, j)
  {
  }

  lemma WorkFewer(s: Sys, hist: History, p: nat, io: Io)
    requires p in s.passes && s.passes[p].todo != [] && s.passes[p].stage == Work
    ensures Fewer(s, DoWork(s, p, io), hist)
  {
    hide DoWork, WorkEngine, WorkText, WorkOut, Pending, EpochIn, Out, Important;
    var s', item := DoWork(s, p, io), s.passes[p].todo[0];
    WorkIs(s, p, io);
    WorkElsewhere(s.engine, s.user, item, io);
    forall r, i: nat | Waiting(s', hist, r, i) ensures Waiting(s, hist, r, i) {
      WorkRaises(s.engine, s.user, item, io, r, hist.joinAt[r]);
      FewerWaits(s.db, s.db, Out(s), Out(s'), EpochIn(s.engine, r, hist.joinAt[r]),
        EpochIn(s'.engine, r, hist.joinAt[r]), hist.rooms[r], hist.joinAt[r], i);
    }
  }

  lemma WorkKeeps(s: Sys, hist: History, n: Counts, p: nat, io: Io)
    requires AtWork(s, hist, n, p, io)
    ensures Carries(s, DoWork(s, p, io), hist, n)
  {
    hide LinearAt, RoomsStand, RowsKnown, OriginsApart, Fewer, TodoKnown, TodoComplete, Worked, DoWork, WorkEngine,
        WorkText, WorkOut, Out, CommitLoads;
    var s', item := DoWork(s, p, io), s.passes[p].todo[0];
    WorkIs(s, p, io);
    WorkElsewhere(s.engine, s.user, item, io);
    WorkInRooms(s, hist, n, p, io);
    WorkFewer(s, hist, p, io);
    PassesStill(s, s', hist);
    assert PassStands(s', hist, s.passes[p]);
    forall q | q in s'.passes ensures PassStands(s', hist, s'.passes[q]) {
      assert q != p ==> s'.passes[q] == s.passes[q];
    }
  }

  // --- A pass moving on -----------------------------------------------------------------------

  /** Dropping this item leaves nothing missing in front of the others. */
  ghost predicate Droppable(s: Sys, hist: History, item: MlsItem)
  {
    item.id in hist.at && HasGroup(s.engine, hist.at[item.id].room) ==>
      !Waiting(s, hist, hist.at[item.id].room, hist.at[item.id].i)
  }

  lemma TailMissesNone(s: Sys, hist: History, todo: seq<MlsItem>, k: nat)
    requires Linear(hist, s.user) && k + 1 < |todo| && todo[k + 1].id in hist.at
    requires HasGroup(s.engine, hist.at[todo[k + 1].id].room) && NoneMissing(s, hist, todo, k + 1)
    requires Droppable(s, hist, todo[0])
    ensures NoneMissing(s, hist, todo[1..], k)
  {
    hide LinearAt, Pending, Important, Behind;
    var tail := todo[1..];
    var Place(r, x) := hist.at[tail[k].id];
    if Waiting(s, hist, r, x) {
      WaitingIsThere(s, hist, r, x);
      forall i: nat | i < |hist.rooms[r]| && Waiting(s, hist, r, i) && Behind(hist.rooms[r], i, x)
        ensures InFront(tail, k, hist.rooms[r][i].eventId)
      {
        WaitingIsThere(s, hist, r, i);
        var id := hist.rooms[r][i].eventId;
        assert InFront(todo, k + 1, id);
        var l :| 0 <= l < k + 1 && todo[l].id == id;
        assert hist.at[id] == Place(r, i);
        assert l > 0 && tail[l - 1].id == id;
      }
    }
  }

  lemma WaitingIsThere(s: Sys, hist: History, r: string, i: nat)
    requires Waiting(s, hist, r, i)
    ensures r in hist.rooms && r in hist.joinAt && i < |hist.rooms[r]| && Important(hist.rooms[r][i], s.user)
  {
  }

  lemma TailStandsOv(s: Sys, hist: History, p: Pass)
    requires Linear(hist, s.user) && PassStands(s, hist, p) && Droppable(s, hist, p.todo[0]) && |p.todo| > 1
    ensures PassStands(s, hist, Pass(p.todo[1..], Check))
  {
    hide NoneMissing, KnownItem, Droppable, Linear, Worked;
    var tail := p.todo[1..];
    assert forall k | 0 <= k < |tail| :: tail[k] == p.todo[k + 1];
    forall k: nat | k < |tail| && tail[k].id in hist.at && HasGroup(s.engine, hist.at[tail[k].id].room)
      ensures NoneMissing(s, hist, tail, k)
    {
      assert NoneMissing(s, hist, p.todo, k + 1);
      TailMissesNone(s, hist, p.todo, k);
    }
  }

  /** Nobody's hands change when a pass moves on empty-handed. */
  lemma HandsSame(passes: map<nat, Pass>, passes': map<nat, Pass>, p: nat)
    requires p in passes ==> !passes[p].stage.Write? || passes[p].stage.text.None?
    requires p in passes' ==> !passes'[p].stage.Write?
    requires forall q | q != p :: (q in passes <==> q in passes') && (q in passes ==> passes'[q] == passes[q])
    ensures InHand(passes') == InHand(passes)
  {
    forall id ensures id in InHand(passes') <==> id in InHand(passes) {
      if id in InHand(passes) {
        var q :| q in passes && passes[q].todo != [] && passes[q].stage.Write? && passes[q].stage.text.Some?
            && passes[q].todo[0].id == id;
        assert passes'[q] == passes[q];
      }
      if id in InHand(passes') {
        var q :| q in passes' && passes'[q].todo != [] && passes'[q].stage.Write? && passes'[q].stage.text.Some?
            && passes'[q].todo[0].id == id;
        assert passes[q] == passes'[q];
      }
    }
  }

  /** All that the rooms, and what waits, depend on. */
  predicate SameView(s: Sys, s': Sys)
  {
    s'.user == s.user && s'.engine == s.engine && s'.db == s.db && Out(s') == Out(s)
  }

  lemma SameViewWaits(s: Sys, s': Sys, hist: History)
    requires SameView(s, s')
    ensures Fewer(s, s', hist)
  {
    hide Out, Pending, EpochIn, Important;
  }

  lemma SameViewRooms(s: Sys, s': Sys, hist: History, n: Counts)
    requires SameView(s, s') && Linear(hist, s.user) && n.Keys == hist.rooms.Keys && RoomsStand(s, hist, n)
    ensures RoomsStand(s', hist, n)
  {
    hide Out, RowsStand, EpochStands, Linear, EpochIn, SpentIn;
    assert hist.joinAt.Keys == hist.rooms.Keys by { JoinsKnown(hist, s.user); }
    forall r | r in hist.rooms ensures RoomStands(s', hist, n, r) {
      assert RoomStands(s, hist, n, r);
    }
  }

  lemma JoinsKnown(hist: History, user: string)
    requires Linear(hist, user)
    ensures hist.joinAt.Keys == hist.rooms.Keys
  {
    hide LinearAt;
  }

  /** Only pass `p` changed, and nobody's hands. */
  lemma OnePassChanges(s: Sys, s': Sys, hist: History, n: Counts, p: nat)
    requires Overlapping(s, hist, n) && s' == s.(passes := s'.passes) && InHand(s'.passes) == InHand(s.passes)
    requires forall q | q != p && q in s'.passes :: q in s.passes && s'.passes[q] == s.passes[q]
    requires p in s'.passes ==> PassStands(s, hist, s'.passes[p])
    ensures Carries(s, s', hist, n)
  {
    hide LinearAt, RoomsStand, RowsKnown, OriginsApart, PassStands, InHand, Fewer, Worked, NoneMissing;
    SameViewWaits(s, s', hist);
    SameViewRooms(s, s', hist, n);
    forall q | q in s'.passes ensures PassStands(s', hist, s'.passes[q]) {
      assert PassStands(s, hist, s'.passes[q]);
      PassStill(s, s', hist, s'.passes[q]);
    }
  }

  lemma SkipKeeps(s: Sys, hist: History, n: Counts, p: nat)
    requires Overlapping(s, hist, n) && p in s.passes && s.passes[p].todo != [] && !s.passes[p].stage.Write?
    requires Droppable(s, hist, s.passes[p].todo[0])
    ensures Carries(s, NextItem(s, p), hist, n)
  {
    hide Linear, RoomsStand, RowsKnown, OriginsApart, PassStands, PassesStand, Droppable, InHand;
    var s' := NextItem(s, p);
    PassItem(s, hist, n, p);
    if |s.passes[p].todo| > 1 {
      TailStandsOv(s, hist, s.passes[p]);
    }
    HandsSame(s.passes, s'.passes, p);
    OnePassChanges(s, s', hist, n, p);
  }

  lemma AskKeeps(s: Sys, hist: History, n: Counts, p: nat, stage: PassStage)
    requires Overlapping(s, hist, n) && p in s.passes && s.passes[p].todo != [] && !s.passes[p].stage.Write?
    requires stage == Work || (stage == Own && s.passes[p].todo[0].MessageItem? && s.passes[p].todo[0].sender == s.user)
    requires HasGroup(s.engine, s.passes[p].todo[0].room)
    ensures Carries(s, AtStage(s, p, stage), hist, n)
  {
    hide Linear, RoomsStand, RowsKnown, OriginsApart, PassesStand, TodoKnown, TodoComplete, InHand;
    var s' := AtStage(s, p, stage);
    PassItem(s, hist, n, p);
    HandsSame(s.passes, s'.passes, p);
    OnePassChanges(s, s', hist, n, p);
  }

  // --- A pass recording an outcome ---------------------------------------------------------------

  lemma HandsAfterWrite(passes: map<nat, Pass>, passes': map<nat, Pass>, p: nat)
    requires p in passes && passes[p].todo != [] && passes[p].stage.Write?
    requires p in passes' ==> !passes'[p].stage.Write?
    requires forall q | q != p :: (q in passes <==> q in passes') && (q in passes ==> passes'[q] == passes[q])
    ensures var id := passes[p].todo[0].id;
            && InHand(passes') <= InHand(passes)
            && InHand(passes) <= InHand(passes') + (if passes[p].stage.text.Some? then {id} else {})
  {
    forall id | id in InHand(passes') ensures id in InHand(passes) {
      var q :| q in passes' && passes'[q].todo != [] && passes'[q].stage.Write? && passes'[q].stage.text.Some?
          && passes'[q].todo[0].id == id;
      assert passes[q] == passes'[q];
    }
    forall id | id in InHand(passes) && !(passes[p].stage.text.Some? && id == passes[p].todo[0].id)
      ensures id in InHand(passes')
    {
      var q :| q in passes && passes[q].todo != [] && passes[q].stage.Write? && passes[q].stage.text.Some?
          && passes[q].todo[0].id == id;
      assert passes'[q] == passes[q];
    }
  }

  ghost predicate AtWrite(s: Sys, hist: History, n: Counts, p: nat)
  {
    && Overlapping(s, hist, n) && p in s.passes && s.passes[p].todo != [] && s.passes[p].stage.Write?
    && s.passes[p].todo[0].id in s.db.events
    && Invariants.WriteTrue(s.user, s.passes[p].todo[0], s.passes[p].stage.text)
  }

  /** The row of `id` was handled with this text, all others stayed. */
  ghost predicate RowHandled(db: Db, db': Db, out: set<string>, out': set<string>, id: string, text: Option<string>)
  {
    && id in db.events && db'.events.Keys == db.events.Keys
    && (forall e | e in db.events && e != id :: db'.events[e] == db.events[e])
    && db'.events[id].ev == db.events[id].ev && db'.events[id].state != Untried
    && db'.events[id].decrypted == (if text.Some? then text else db.events[id].decrypted)
    && out' <= out && out <= out' + (if text.Some? then {id} else {})
  }

  lemma WriteIs(s: Sys, p: nat)
    requires p in s.passes && s.passes[p].todo != [] && s.passes[p].stage.Write?
             && s.passes[p].todo[0].id in s.db.events
    requires s.passes[p].stage.text.Some? ==> s.passes[p].todo[0].MessageItem?
    ensures var s', id, text := DoWrite(s, p), s.passes[p].todo[0].id, s.passes[p].stage.text;
            && s' == s.(db := s'.db, passes := NextItem(s, p).passes)
            && RowHandled(s.db, s'.db, Out(s), Out(s'), id, text)
  {
    hide InHand;
    HandsAfterWrite(s.passes, DoWrite(s, p).passes, p);
  }

  lemma KeptStill(db: Db, db': Db, out: set<string>, out': set<string>, id: string, text: Option<string>, ev: Event)
    requires RowHandled(db, db', out, out', id, text) && Kept(db, out, ev)
    requires ev.eventId == id && text.Some? ==> text == CipherOf(ev).text
    ensures Kept(db', out', ev)
  {
    hide CipherOf;
  }

  /** What was recorded for event `i`, if it was its row, is its own text. */
  predicate TextOf(id: string, text: Option<string>, h: seq<Event>, j: nat, i: nat)
    requires i < |h|
  {
    h[i].eventId == id && text.Some? ==> SinceJoin(h, i, j) && text == CipherOf(h[i]).text
  }

  lemma RowsWritten(db: Db, db': Db, out: set<string>, out': set<string>, epoch: nat, spent: set<Key>, user: string,
      h: seq<Event>, j: nat, n: nat, id: string, text: Option<string>)
    requires RowsStand(db, out, epoch, spent, user, h, j, n) && RowHandled(db, db', out, out', id, text)
    requires forall i: nat | i < |h| && Important(h[i], user) ::
               TextOf(id, text, h, j, i) && (h[i].eventId == id ==> !Pending(db, out, epoch, h, j, i))
    ensures RowsStand(db', out', epoch, spent, user, h, j, n)
  {
    hide Commits, CipherOf, KeyOf;
    forall i: nat | i < |h| && Important(h[i], user) ensures RowStands(db', out', epoch, spent, h, j, n, i) {
      assert RowStands(db, out, epoch, spent, h, j, n, i);
      assert TextOf(id, text, h, j, i);
      if Kept(db, out, h[i]) {
        KeptStill(db, db', out, out', id, text, h[i]);
      }
    }
  }

  lemma TextKnown(s: Sys, hist: History, n: Counts, p: nat, r: string, i: nat)
    requires AtWrite(s, hist, n, p) && r in hist.rooms && i < |hist.rooms[r]| && Important(hist.rooms[r][i], s.user)
    ensures r in hist.joinAt && TextOf(s.passes[p].todo[0].id, s.passes[p].stage.text, hist.rooms[r], hist.joinAt[r], i)
    ensures hist.rooms[r][i].eventId == s.passes[p].todo[0].id ==> !Waiting(s, hist, r, i)
  {
    hide LinearAt, RoomsStand, RowsKnown, OriginsApart, PassesStand, Pending, SinceJoin, CipherOf, KnownItem,
        TodoComplete, Important;
    RoomOf(s, hist, n, r);
    PassItem(s, hist, n, p);
    IdsOfRoom(hist, s.user, r, i);
    var item := s.passes[p].todo[0];
    if hist.rooms[r][i].eventId == item.id {
      HistoryItem(hist, s.user, item);
    }
  }

  lemma WriteInRoom(s: Sys, hist: History, n: Counts, p: nat, r: string)
    requires AtWrite(s, hist, n, p) && r in hist.rooms && r in hist.joinAt
    ensures RoomStands(DoWrite(s, p), hist, n, r)
  {
    hide Linear, RoomsStand, RowsKnown, OriginsApart, PassesStand, RowsStand, Out, DoWrite, RowHandled, EpochStands,
        TextOf, Pending, EpochIn, SpentIn, Important;
    var h, j, id := hist.rooms[r], hist.joinAt[r], s.passes[p].todo[0].id;
    WriteIs(s, p);
    RoomOf(s, hist, n, r);
    forall i: nat | i < |h| && Important(h[i], s.user)
      ensures TextOf(id, s.passes[p].stage.text, h, j, i)
      ensures h[i].eventId == id ==> !Pending(s.db, Out(s), EpochIn(s.engine, r, j), h, j, i)
    {
      TextKnown(s, hist, n, p, r, i);
    }
    RowsWritten(s.db, DoWrite(s, p).db, Out(s), Out(DoWrite(s, p)), EpochIn(s.engine, r, j), SpentIn(s.engine, r),
      s.user, h, j, n[r], id, s.passes[p].stage.text);
  }

  lemma WriteFewer(s: Sys, hist: History, n: Counts, p: nat)
    requires AtWrite(s, hist, n, p)
    ensures Fewer(s, DoWrite(s, p), hist)
  {
    hide Linear, RoomsStand, RowsKnown, OriginsApart, PassesStand, Out, DoWrite, RowHandled, Pending, EpochIn, Kept,
        Important;
    WriteIs(s, p);
    var s' := DoWrite(s, p);
    forall r, i: nat | Waiting(s', hist, r, i) ensures Waiting(s, hist, r, i) {
      TextKnown(s, hist, n, p, r, i);
      var h, j := hist.rooms[r], hist.joinAt[r];
      if Kept(s.db, Out(s), h[i]) {
        KeptStill(s.db, s'.db, Out(s), Out(s'), s.passes[p].todo[0].id, s.passes[p].stage.text, h[i]);
      }
      FewerWaits(s.db, s'.db, Out(s), Out(s'), EpochIn(s.engine, r, j), EpochIn(s.engine, r, j), h, j, i);
    }
  }

  lemma RowsKnownAfterWrite(db: Db, db': Db, hist: History, user: string, n: Counts, id: string)
    requires Linear(hist, user) && n.Keys == hist.rooms.Keys && RowsKnown(db, hist, user, n) && id in db.events
    requires db'.events.Keys == db.events.Keys && forall e | e in db.events && e != id :: db'.events[e] == db.events[e]
    requires db'.events[id].state != Untried
    ensures RowsKnown(db', hist, user, n)
  {
    hide LinearAt, ItemOf, OwnItem;
  }

  lemma NextPasses(s: Sys, hist: History, n: Counts, p: nat)
    requires Overlapping(s, hist, n) && p in s.passes && s.passes[p].todo != []
    requires Droppable(s, hist, s.passes[p].todo[0])
    ensures forall q | q in NextItem(s, p).passes :: PassStands(s, hist, NextItem(s, p).passes[q])
  {
    hide Linear, RoomsStand, RowsKnown, OriginsApart, PassStands, Droppable;
    PassItem(s, hist, n, p);
    if |s.passes[p].todo| > 1 {
      TailStandsOv(s, hist, s.passes[p]);
    }
  }

  lemma WrittenDroppable(s: Sys, hist: History, n: Counts, p: nat)
    requires Overlapping(s, hist, n) && p in s.passes && s.passes[p].todo != [] && s.passes[p].stage.Write?
    ensures Droppable(s, hist, s.passes[p].todo[0])
  {
    hide Linear, RoomsStand, RowsKnown, OriginsApart, PassesStand, TodoKnown, TodoComplete, Waiting, SinceJoin;
    PassItem(s, hist, n, p);
  }

  lemma WriteKeepsOv(s: Sys, hist: History, n: Counts, p: nat)
    requires AtWrite(s, hist, n, p)
    ensures Carries(s, DoWrite(s, p), hist, n)
  {
    hide LinearAt, RowsKnown, OriginsApart, PassStands, Out, DoWrite, Fewer, RoomStands, Worked, Droppable,
        NoneMissing;
    var s' := DoWrite(s, p);
    WriteIs(s, p);
    WrittenDroppable(s, hist, n, p);
    NextPasses(s, hist, n, p);
    WriteFewer(s, hist, n, p);
    forall q | q in s'.passes ensures PassStands(s', hist, s'.passes[q]) {
      PassStill(s, s', hist, s'.passes[q]);
    }
    forall r | r in hist.rooms {
      WriteInRoom(s, hist, n, p, r);
    }
    RowsKnownAfterWrite(s.db, s'.db, hist, s.user, n, s.passes[p].todo[0].id);
  }

  lemma PassFacts(s: Sys, p: nat)
    requires Invariants.Inv(s) && p in s.passes
    ensures s.passes[p].todo != [] && s.passes[p].todo[0].id in s.db.events
    ensures s.passes[p].stage.Write? ==> Invariants.WriteTrue(s.user, s.passes[p].todo[0], s.passes[p].stage.text)
  {
    assert Invariants.PassStands(s.db, s.user, s.passes[p]);
    assert Invariants.ItemStands(s.db, s.passes[p].todo[0]);
  }

  /** What a pass may skip: a room not held, or a message of ours. */
  lemma SkipDroppable(s: Sys, hist: History, n: Counts, p: nat)
    requires Overlapping(s, hist, n) && p in s.passes && s.passes[p].todo != []
    requires var item := s.passes[p].todo[0];
             !HasGroup(s.engine, item.room) || (item.MessageItem? && item.sender == s.user)
    ensures Droppable(s, hist, s.passes[p].todo[0])
  {
    hide LinearAt, RoomsStand, RowsKnown, OriginsApart, PassesStand, TodoComplete, StageStands, Pending, KnownItem,
        CipherOf, OwnItem;
    PassItem(s, hist, n, p);
    if s.passes[p].todo[0].id in hist.at {
      HistoryItem(hist, s.user, s.passes[p].todo[0]);
    }
  }

  lemma StageHeld(s: Sys, hist: History, n: Counts, p: nat)
    requires Overlapping(s, hist, n) && p in s.passes && !s.passes[p].stage.Check?
    ensures s.passes[p].todo != [] && HasGroup(s.engine, s.passes[p].todo[0].room)
    ensures s.passes[p].stage.Own? ==> s.passes[p].todo[0].MessageItem? && s.passes[p].todo[0].sender == s.user
  {
    hide Linear, RoomsStand, RowsKnown, OriginsApart, PassesStand, TodoKnown, TodoComplete, Worked;
    PassItem(s, hist, n, p);
  }

  lemma PassStepOv(s: Sys, hist: History, n: Counts, p: nat, io: Io)
    requires Overlapping(s, hist, n) && Invariants.Inv(s) && p in s.passes && s.passes[p].todo != []
    requires s.passes[p].stage == Work ==> CommitLoads(s.engine, s.passes[p].todo[0], io)
    ensures Carries(s, DoPassStep(s, p, io), hist, n)
  {
    hide Overlapping, Invariants.Inv, DoWork, DoWrite, HasPendingSend, CommitLoads, HasGroup, NextItem, AtStage,
        Droppable;
    var item := s.passes[p].todo[0];
    PassFacts(s, p);
    if !s.passes[p].stage.Check? {
      StageHeld(s, hist, n, p);
    }
    match s.passes[p].stage
    case Check =>
      if !HasGroup(s.engine, item.room) {
        SkipDroppable(s, hist, n, p);
        SkipKeeps(s, hist, n, p);
      } else {
        AskKeeps(s, hist, n, p, if item.MessageItem? && item.sender == s.user then Own else Work);
      }
    case Own =>
      if HasPendingSend(s.db, item.room) {
        SkipDroppable(s, hist, n, p);
        SkipKeeps(s, hist, n, p);
      } else {
        AskKeeps(s, hist, n, p, Work);
      }
    case Work => WorkKeeps(s, hist, n, p, io);
    case Write(_) => WriteKeepsOv(s, hist, n, p);
  }

  // --- A pass begins ----------------------------------------------------------------------------

  lemma StreamKnown(db: Db, hist: History, user: string, n: Counts, k: nat)
    requires Linear(hist, user) && n.Keys == hist.rooms.Keys && RowsKnown(db, hist, user, n)
             && CurrentState.RowsAgree(db)
    requires k < |PendingMls(db)|
    ensures var item, rank := PendingMls(db)[k], Ordered(MlsRanks(db))[k];
            && item.id == rank.id && KnownItem(hist, user, item)
            && (item.id in hist.at ==>
                  rank.n == EventAt(hist, item.id).depth && hist.at[item.id].i < n[hist.at[item.id].room])
  {
    hide Linear, Ordered, MlsRanks, PendingMls;
    StreamRow(db, k);
    var rank := Ordered(MlsRanks(db))[k];
    assert db.events[rank.id].ev.eventId == rank.id;
  }

  lemma StreamOrdered(db: Db, hist: History, user: string, n: Counts, k: nat, l: nat)
    requires Linear(hist, user) && n.Keys == hist.rooms.Keys && RowsKnown(db, hist, user, n)
             && CurrentState.RowsAgree(db)
    requires k < l < |PendingMls(db)| && PendingMls(db)[k].id in hist.at && PendingMls(db)[l].id in hist.at
    requires hist.at[PendingMls(db)[k].id].room == hist.at[PendingMls(db)[l].id].room
    ensures hist.at[PendingMls(db)[k].id].i < hist.at[PendingMls(db)[l].id].i
  {
    hide LinearAt, Ordered, MlsRanks, PendingMls, RowsKnown, KnownItem;
    StreamKnown(db, hist, user, n, k);
    StreamKnown(db, hist, user, n, l);
    StreamOrder(hist, user, Ordered(MlsRanks(db)), k, l);
  }

  /** A stored event that waits is in the stream. */
  lemma InTheStream(s: Sys, hist: History, n: Counts, r: string, i: nat) returns (l: nat)
    requires Overlapping(s, hist, n) && CurrentState.RowsAgree(s.db) && Waiting(s, hist, r, i) && i < n[r]
    ensures l < |PendingMls(s.db)| && PendingMls(s.db)[l].id == hist.rooms[r][i].eventId
  {
    hide Ordered, MlsRanks, PendingMls, PassesStand, OriginsApart, RowsKnown, KnownItem, Out, EpochStands, Pending,
        RoomsStand;
    var id, j := hist.rooms[r][i].eventId, hist.joinAt[r];
    RoomOf(s, hist, n, r);
    assert RowStands(s.db, Out(s), EpochIn(s.engine, r, j), SpentIn(s.engine, r), hist.rooms[r], j, n[r], i);
    assert LinearAt(hist.rooms[r], i, r, s.user);
    InStream(s.db, id);
    l := StreamHas(s.db, Rank(s.db.events[id].ev.depth, id));
    StreamKnown(s.db, hist, s.user, n, l);
  }

  lemma StreamMissesNone(s: Sys, hist: History, n: Counts, k: nat)
    requires Overlapping(s, hist, n) && CurrentState.RowsAgree(s.db) && k < |PendingMls(s.db)|
    ensures NoneMissing(s, hist, PendingMls(s.db), k)
  {
    hide LinearAt, Ordered, MlsRanks, PendingMls, RoomsStand, PassesStand, OriginsApart, CurrentState.RowsAgree,
        RowsKnown, KnownItem, Pending, Important;
    var todo := PendingMls(s.db);
    if todo[k].id in hist.at {
      StreamKnown(s.db, hist, s.user, n, k);
      var Place(r, x) := hist.at[todo[k].id];
      forall i: nat | Waiting(s, hist, r, i) && Behind(hist.rooms[r], i, x)
        ensures InFront(todo, k, hist.rooms[r][i].eventId)
      {
        var l := InTheStream(s, hist, n, r, i);
        IdsOfRoom(hist, s.user, r, i);
        if l > k {
          StreamOrdered(s.db, hist, s.user, n, k, l);
        }
      }
    }
  }

  lemma StreamStands(s: Sys, hist: History, n: Counts)
    requires Overlapping(s, hist, n) && CurrentState.RowsAgree(s.db) && PendingMls(s.db) != []
    ensures PassStands(s, hist, Pass(PendingMls(s.db), Check))
  {
    hide LinearAt, RoomsStand, PendingMls, RowsKnown, KnownItem, NoneMissing, OriginsApart, CurrentState.RowsAgree,
        PassesStand, Worked;
    var todo := PendingMls(s.db);
    forall k: nat | k < |todo| ensures KnownItem(hist, s.user, todo[k]) && NoneMissing(s, hist, todo, k) {
      StreamKnown(s.db, hist, s.user, n, k);
      StreamMissesNone(s, hist, n, k);
    }
    forall k: nat, l: nat | k < l < |todo| && todo[k].id in hist.at && todo[l].id in hist.at
        && hist.at[todo[k].id].room == hist.at[todo[l].id].room
      ensures hist.at[todo[k].id].i < hist.at[todo[l].id].i
    {
      StreamOrdered(s.db, hist, s.user, n, k, l);
    }
  }

  lemma BeginOv(s: Sys, hist: History, n: Counts, p: nat)
    requires Overlapping(s, hist, n) && CurrentState.RowsAgree(s.db) && p !in s.passes
    ensures Carries(s, DoPassBegin(s, p), hist, n)
  {
    hide Linear, RoomsStand, PendingMls, RowsKnown, PassStands, PassesStand, OriginsApart, CurrentState.RowsAgree,
        InHand;
    if PendingMls(s.db) != [] {
      StreamStands(s, hist, n);
      HandsSame(s.passes, DoPassBegin(s, p).passes, p);
      OnePassChanges(s, DoPassBegin(s, p), hist, n, p);
    }
  }

  // --- Batches ------------------------------------------------------------------------------------

  lemma RowsArrive(db: Db, out: set<string>, epoch: nat, spent: set<Key>, user: string, hist: History, n: Counts,
      evs: seq<Event>, n': Counts, r: string)
    requires Linear(hist, user) && n.Keys == hist.rooms.Keys == n'.Keys && r in hist.rooms
             && Brings(hist, user, n, evs, n')
    requires RowsStand(db, out, epoch, spent, user, hist.rooms[r], hist.joinAt[r], n[r])
    ensures RowsStand(ApplyAll(db, evs), out, epoch, spent, user, hist.rooms[r], hist.joinAt[r], n'[r])
  {
    hide LinearAt, OwnEvent, SinceJoin, CipherOf, KeyOf;
    ArrivalEffect(db, evs);
    var h, db' := hist.rooms[r], ApplyAll(db, evs);
    forall i: nat | i < |h| && Important(h[i], user)
      ensures RowStands(db', out, epoch, spent, h, hist.joinAt[r], n'[r], i)
    {
      RowArrives(db, user, hist, n, evs, n', r, i);
      assert RowStands(db, out, epoch, spent, h, hist.joinAt[r], n[r], i);
    }
  }

  /** A row that was there stays; one that arrives is the history's. */
  lemma RowArrives(db: Db, user: string, hist: History, n: Counts, evs: seq<Event>, n': Counts, r: string, i: nat)
    requires Linear(hist, user) && n.Keys == hist.rooms.Keys == n'.Keys && r in hist.rooms
             && Brings(hist, user, n, evs, n') && i < |hist.rooms[r]| && Important(hist.rooms[r][i], user)
    requires hist.rooms[r][i].eventId in db.events <==> i < n[r]
    ensures var ev, log := hist.rooms[r][i], ApplyAll(db, evs).events;
            && (ev.eventId in log <==> i < n'[r])
            && (i < n[r] ==> log[ev.eventId] == db.events[ev.eventId])
            && (n[r] <= i < n'[r] ==> log[ev.eventId] == NewRow(ev))
  {
    hide LinearAt, OwnEvent, NewRow;
    ArrivalEffect(db, evs);
    var id, db' := hist.rooms[r][i].eventId, ApplyAll(db, evs);
    assert hist.at[id] == Place(r, i);
    if id in db'.events && id !in db.events {
      var k :| 0 <= k < |evs| && evs[k].eventId == id && db'.events[id] == NewRow(evs[k]);
      assert evs[k] == hist.rooms[r][i];
    }
    if n[r] <= i < n'[r] {
      assert CurrentState.Mentions(evs, id);
    }
  }

  lemma KnownArrive(db: Db, user: string, hist: History, n: Counts, evs: seq<Event>, n': Counts)
    requires Linear(hist, user) && n.Keys == hist.rooms.Keys == n'.Keys && Brings(hist, user, n, evs, n')
             && RowsKnown(db, hist, user, n)
    ensures RowsKnown(ApplyAll(db, evs), hist, user, n')
  {
    hide LinearAt, ItemOf;
    ArrivalEffect(db, evs);
    var db' := ApplyAll(db, evs);
    forall id | id in db'.events && Unhandled(db'.events[id]) && ItemOf(db'.events[id]).Some?
      ensures if id in hist.at then db'.events[id].ev == EventAt(hist, id) && hist.at[id].i < n'[hist.at[id].room]
              else OwnItem(user, ItemOf(db'.events[id]).value)
    {
      if id !in db.events {
        var k :| 0 <= k < |evs| && evs[k].eventId == id && db'.events[id] == NewRow(evs[k]);
      } else {
        assert id in hist.at ==> n[hist.at[id].room] <= n'[hist.at[id].room];
      }
    }
  }

  /** What the invariant reads of a state besides the store. */
  predicate SameBut(s: Sys, s': Sys)
  {
    && s'.user == s.user && s'.engine == s.engine && s'.passes == s.passes && s'.lost == s.lost
    && s'.missed == s.missed && s'.origin == s.origin
  }

  lemma SameOut(s: Sys, s': Sys)
    requires SameBut(s, s')
    ensures Out(s') == Out(s)
  {
  }

  /** Of the rows a pass must get right, none lost its text. */
  ghost predicate TextsStay(db: Db, db': Db, hist: History, user: string)
    requires Linear(hist, user)
  {
    forall id | id in hist.at && Important(EventAt(hist, id), user) && id in db.events ::
      id in db'.events && db'.events[id].decrypted == db.events[id].decrypted
  }

  lemma StoreFewer(s: Sys, s': Sys, hist: History)
    requires Linear(hist, s.user) && SameBut(s, s') && TextsStay(s.db, s'.db, hist, s.user)
    ensures Fewer(s, s', hist)
  {
    hide LinearAt, Out, EpochIn, CipherOf, SinceJoin, Important;
    SameOut(s, s');
    forall r, i: nat | Waiting(s', hist, r, i) ensures Waiting(s, hist, r, i) {
      IdsOfRoom(hist, s.user, r, i);
    }
  }

  /** The store changed, and every room and the stream stand in the new one. */
  lemma StoreOv(s: Sys, s': Sys, hist: History, n: Counts, n': Counts)
    requires Overlapping(s, hist, n) && SameBut(s, s') && TextsStay(s.db, s'.db, hist, s.user)
    requires n'.Keys == hist.rooms.Keys && RowsKnown(s'.db, hist, s.user, n') && RoomsStand(s', hist, n')
    ensures Carries(s, s', hist, n')
  {
    hide LinearAt, RoomsStand, RowsKnown, PassStands, Fewer, TextsStay;
    StoreFewer(s, s', hist);
    PassesStill(s, s', hist);
  }

  lemma BatchInRoom(s: Sys, s': Sys, hist: History, n: Counts, evs: seq<Event>, n': Counts, r: string)
    requires Overlapping(s, hist, n) && SameBut(s, s') && s'.db == ApplyAll(s.db, evs) && r in hist.rooms
    requires n'.Keys == hist.rooms.Keys && r in hist.joinAt && Brings(hist, s.user, n, evs, n')
    ensures RoomStands(s', hist, n', r)
  {
    hide LinearAt, RoomsStand, RowsStand, PassesStand, RowsKnown, OriginsApart, Out, EpochIn, SpentIn, OwnEvent;
    SameOut(s, s');
    RoomOf(s, hist, n, r);
    var j := hist.joinAt[r];
    RowsArrive(s.db, Out(s), EpochIn(s.engine, r, j), SpentIn(s.engine, r), s.user, hist, n, evs, n', r);
    CommitsGrow(hist.rooms[r], n[r], n'[r]);
    assert EpochIn(s'.engine, r, j) == EpochIn(s.engine, r, j) && SpentIn(s'.engine, r) == SpentIn(s.engine, r);
  }

  lemma BatchOv(s: Sys, s': Sys, hist: History, n: Counts, ws: seq<Wire>, n': Counts)
    requires Overlapping(s, hist, n) && SameBut(s, s') && s'.db == ApplyEvents(s.db, ws).0
    requires n'.Keys == hist.rooms.Keys && BatchBrings(s, hist, n, ws, n')
    ensures Carries(s, s', hist, n')
  {
    hide LinearAt, RoomStands, RoomsStand, RowsKnown, OriginsApart, PassStands, Out, Brings, PassesStand;
    if ParseAll(ws).Ok? {
      var evs := ParseAll(ws).value;
      KnownArrive(s.db, s.user, hist, n, evs, n');
      BatchInRooms(s, s', hist, n, evs, n');
      ArrivalEffect(s.db, evs);
    }
    assert RoomsStand(s', hist, n') && RowsKnown(s'.db, hist, s.user, n') by {
      if ParseAll(ws).Malformed? {
        SameOut(s, s');
        SameViewRooms(s, s', hist, n);
      }
    }
    StoreOv(s, s', hist, n, n');
  }

  lemma BatchInRooms(s: Sys, s': Sys, hist: History, n: Counts, evs: seq<Event>, n': Counts)
    requires Overlapping(s, hist, n) && SameBut(s, s') && s'.db == ApplyAll(s.db, evs)
    requires n'.Keys == hist.rooms.Keys && Brings(hist, s.user, n, evs, n')
    ensures RoomsStand(s', hist, n')
  {
    hide LinearAt, RoomStands, RowsKnown, OriginsApart, PassesStand, Out, Brings;
    forall r | r in hist.rooms {
      BatchInRoom(s, s', hist, n, evs, n', r);
    }
  }

  // --- Our own sends --------------------------------------------------------------------------------

  /** The store changed, but not where a pass must get things right. */
  ghost predicate Untouched(db: Db, db': Db, hist: History, user: string)
    requires Linear(hist, user)
  {
    && (forall id | id in hist.at && Important(EventAt(hist, id), user) ::
          (id in db'.events <==> id in db.events) && (id in db.events ==> db'.events[id] == db.events[id]))
    && (forall id | id in db'.events && Unhandled(db'.events[id]) && ItemOf(db'.events[id]).Some? ::
          id in db.events && db'.events[id].ev == db.events[id].ev && Unhandled(db.events[id]))
  }

  lemma UntouchedRows(db: Db, db': Db, out: set<string>, epoch: nat, spent: set<Key>, user: string, hist: History,
      r: string, n: nat)
    requires Linear(hist, user) && Untouched(db, db', hist, user) && r in hist.rooms
    requires RowsStand(db, out, epoch, spent, user, hist.rooms[r], hist.joinAt[r], n)
    ensures RowsStand(db', out, epoch, spent, user, hist.rooms[r], hist.joinAt[r], n)
  {
    hide LinearAt, Important, ItemOf, Unhandled, CipherOf, SinceJoin, KeyOf;
    var h, j := hist.rooms[r], hist.joinAt[r];
    forall i: nat | i < |h| && Important(h[i], user) ensures RowStands(db', out, epoch, spent, h, j, n, i) {
      assert RowStands(db, out, epoch, spent, h, j, n, i);
      IdsOfRoom(hist, user, r, i);
    }
  }

  lemma UntouchedKnown(db: Db, db': Db, hist: History, user: string, n: Counts)
    requires Linear(hist, user) && Untouched(db, db', hist, user) && n.Keys == hist.rooms.Keys
             && RowsKnown(db, hist, user, n)
    ensures RowsKnown(db', hist, user, n) && TextsStay(db, db', hist, user)
  {
    hide LinearAt, Important;
  }

  lemma UntouchedOv(s: Sys, s': Sys, hist: History, n: Counts)
    requires Overlapping(s, hist, n) && SameBut(s, s') && Untouched(s.db, s'.db, hist, s.user)
    ensures Carries(s, s', hist, n)
  {
    hide LinearAt, OriginsApart, PassesStand, Out, RowsStand, EpochIn, SpentIn, Untouched, TextsStay, RowsKnown;
    SameOut(s, s');
    UntouchedKnown(s.db, s'.db, hist, s.user, n);
    forall r | r in hist.rooms ensures RoomStands(s', hist, n, r) {
      RoomOf(s, hist, n, r);
      UntouchedRows(s.db, s'.db, Out(s), EpochIn(s.engine, r, hist.joinAt[r]), SpentIn(s.engine, r), s.user, hist, r,
        n[r]);
    }
    StoreOv(s, s', hist, n, n);
  }

  lemma QueueOv(s: Sys, hist: History, txn: string, echo: string, room: string, body: string, ts: int)
    requires Linear(hist, s.user) && (forall id | id in hist.at :: !IsLocal(id)) && IsLocal(echo)
    ensures Untouched(s.db, DoQueue(s, txn, echo, room, body, ts).db, hist, s.user)
  {
    hide Linear, Important, NextDepth;
  }

  lemma FailOv(db: Db, hist: History, user: string, txn: string)
    requires Linear(hist, user) && (forall id | id in hist.at :: !IsLocal(id))
    requires txn in db.pending && IsLocal(db.pending[txn].echo)
    ensures Untouched(db, FailSend(db, txn), hist, user)
  {
    hide Linear, Important;
  }

  lemma ResolveOv(db: Db, hist: History, user: string, txn: string, id: string)
    requires Linear(hist, user) && (forall e | e in hist.at :: !IsLocal(e))
    requires txn in db.pending && IsLocal(db.pending[txn].echo)
    requires db.pending[txn].echo in db.events && db.events[db.pending[txn].echo].ev.ty == Message
    requires id in hist.at ==> !Important(EventAt(hist, id), user)
    ensures Untouched(db, ResolveSend(db, txn, id), hist, user)
  {
    hide Linear, Important, ItemOf;
    ResolveEffect(db, txn, id);
  }

  // --- Engine steps outside the passes ---------------------------------------------------------------

  /** No group of the history moved or opened anything; one newly held is joined in
      time. */
  ghost predicate QuietIn(s: Sys, e': Engine, hist: History, r: string)
    requires r in hist.joinAt
  {
    && EpochIn(e', r, hist.joinAt[r]) == EpochIn(s.engine, r, hist.joinAt[r])
    && SpentIn(e', r) <= SpentIn(s.engine, r)
    && (HasGroup(e', r) ==> HasGroup(s.engine, r) || NoneSkipped(s, hist, r))
  }

  ghost predicate Quiet(s: Sys, e': Engine, hist: History)
    requires Linear(hist, s.user)
  {
    && e'.device.user == s.engine.device.user && s.engine.device.groups.Keys <= e'.device.groups.Keys
    && forall r | r in hist.rooms :: QuietIn(s, e', hist, r)
  }

  lemma QuietRoom(s: Sys, s': Sys, hist: History, n: Counts, r: string)
    requires Overlapping(s, hist, n) && r in hist.rooms && r in hist.joinAt && QuietIn(s, s'.engine, hist, r)
    requires s'.user == s.user && s'.db == s.db && Out(s') == Out(s)
    ensures RoomStands(s', hist, n, r)
  {
    hide Linear, RoomsStand, RowsKnown, OriginsApart, PassesStand, Out, EpochStands, EpochIn, SpentIn, NoneSkipped;
    RoomOf(s, hist, n, r);
    FewerSpent(s.db, Out(s), EpochIn(s.engine, r, hist.joinAt[r]), SpentIn(s.engine, r), SpentIn(s'.engine, r), s.user,
      hist.rooms[r], hist.joinAt[r], n[r]);
  }

  lemma FewerSpent(db: Db, out: set<string>, epoch: nat, spent: set<Key>, spent': set<Key>, user: string,
      h: seq<Event>, j: nat, n: nat)
    requires RowsStand(db, out, epoch, spent, user, h, j, n) && spent' <= spent
    ensures RowsStand(db, out, epoch, spent', user, h, j, n)
  {
    hide Pending, Commits, CipherOf, KeyOf, Important;
    forall i: nat | i < |h| && Important(h[i], user) ensures RowStands(db, out, epoch, spent', h, j, n, i) {
      assert RowStands(db, out, epoch, spent, h, j, n, i);
    }
  }

  lemma QuietFewer(s: Sys, s': Sys, hist: History)
    requires Linear(hist, s.user) && Quiet(s, s'.engine, hist)
    requires s'.user == s.user && s'.db == s.db && Out(s') == Out(s)
    ensures Fewer(s, s', hist)
  {
    hide LinearAt, Out, Pending, EpochIn, SpentIn, NoneSkipped, Important;
    forall r, i: nat | Waiting(s', hist, r, i) ensures Waiting(s, hist, r, i) {
      assert QuietIn(s, s'.engine, hist, r);
    }
  }

  lemma QuietPass(s: Sys, s': Sys, hist: History, p: nat)
    requires Linear(hist, s.user) && Quiet(s, s'.engine, hist) && Fewer(s, s', hist)
    requires p in s.passes && PassStands(s, hist, s.passes[p])
    ensures PassStands(s', hist, s.passes[p])
  {
    hide LinearAt, Fewer, EpochIn, SpentIn, Worked, KnownItem, NoneMissing;
    var todo := s.passes[p].todo;
    forall k: nat | k < |todo| && todo[k].id in hist.at && HasGroup(s'.engine, hist.at[todo[k].id].room)
      ensures HasGroup(s.engine, hist.at[todo[k].id].room) || NoneMissing(s, hist, todo, k)
    {
      assert QuietIn(s, s'.engine, hist, hist.at[todo[k].id].room);
    }
    PassStill(s, s', hist, s.passes[p]);
  }

  lemma QuietOv(s: Sys, s': Sys, hist: History, n: Counts)
    requires Overlapping(s, hist, n) && Quiet(s, s'.engine, hist)
    requires s'.user == s.user && s'.db == s.db && s'.passes == s.passes && s'.origin == s.origin
    requires s'.lost == s.lost && s'.missed == s.missed
    ensures Carries(s, s', hist, n)
  {
    hide LinearAt, RoomStands, RowsKnown, OriginsApart, InHand, PassStands, QuietIn, Fewer;
    QuietFewer(s, s', hist);
    forall r | r in hist.rooms {
      QuietRoom(s, s', hist, n, r);
    }
    forall p | p in s'.passes {
      QuietPass(s, s', hist, p);
    }
  }

  lemma SealQuiet(s: Sys, hist: History, io: Io)
    requires Linear(hist, s.user) && SenderAt(s, Seal)
    ensures Quiet(s, DoFlushSeal(s, io).engine, hist)
  {
    hide LinearAt, NoneSkipped;
  }

  lemma GroupQuiet(s: Sys, hist: History, room: string, invitee: string, accept: bool, put: bool)
    requires Linear(hist, s.user) && room !in hist.rooms
    ensures Quiet(s, CreateGroup(s.engine, room, put).0, hist)
    ensures Quiet(s, AddMember(s.engine, room, invitee, accept, put).0, hist)
  {
    hide LinearAt, NoneSkipped;
  }

  lemma JoinQuiet(s: Sys, hist: History, n: Counts, p: nat, accept: bool, put: bool)
    requires Overlapping(s, hist, n) && JoiningAt(s, p, true) && Tame(s, LoopJoin(p, accept, put), hist, n, n)
    ensures Quiet(s, DoLoopJoin(s, p, accept, put).engine, hist)
  {
    hide LinearAt, NoneSkipped, RoomsStand, PassesStand, RowsKnown, OriginsApart, DoLoopJoin, JoinsInTime;
    var e' := DoLoopJoin(s, p, accept, put).engine;
    JoinKeys(s, p, accept, put);
    forall r | r in hist.rooms ensures QuietIn(s, e', hist, r) {
      if Runs.Acquires(s, LoopJoin(p, accept, put), r) {
        assert JoinsInTime(s, ToDeviceOf(s.loops[p].resp)[s.loops[p].i].welcome.value, hist, r);
        JoinQuietIn(s, hist, p, accept, put, r);
      } else {
        JoinElsewhere(s, p, accept, put, r);
      }
    }
  }

  lemma JoinKeys(s: Sys, p: nat, accept: bool, put: bool)
    requires JoiningAt(s, p, true)
    ensures var e' := DoLoopJoin(s, p, accept, put).engine;
            e'.device.user == s.engine.device.user && s.engine.device.groups.Keys <= e'.device.groups.Keys
  {
  }

  lemma JoinElsewhere(s: Sys, p: nat, accept: bool, put: bool, r: string)
    requires JoiningAt(s, p, true) && s.engine.device.user == s.user
    requires !Runs.Acquires(s, LoopJoin(p, accept, put), r)
    ensures var e' := DoLoopJoin(s, p, accept, put).engine;
            && (HasGroup(e', r) <==> HasGroup(s.engine, r))
            && (HasGroup(s.engine, r) ==> e'.device.groups[r] == s.engine.device.groups[r])
  {
  }

  lemma JoinQuietIn(s: Sys, hist: History, p: nat, accept: bool, put: bool, r: string)
    requires JoiningAt(s, p, true) && s.engine.device.user == s.user && r in hist.joinAt
    requires Runs.Acquires(s, LoopJoin(p, accept, put), r)
    requires JoinsInTime(s, ToDeviceOf(s.loops[p].resp)[s.loops[p].i].welcome.value, hist, r)
    ensures QuietIn(s, DoLoopJoin(s, p, accept, put).engine, hist, r)
  {
    hide NoneSkipped;
  }

  lemma CrashOv(s: Sys, hist: History, n: Counts)
    requires Overlapping(s, hist, n) && s.engine.device == s.engine.saved
    ensures Carries(s, DoCrash(s), hist, n)
  {
    hide LinearAt, RoomsStand, RowsKnown, OriginsApart, InHand, PassStands;
    NobodysHands();
    assert Out(DoCrash(s)) == Out(s);
    SameViewRooms(s, DoCrash(s), hist, n);
  }

  lemma NobodysHands()
    ensures InHand(map[]) == {}
  {
  }

  lemma TakeOv(s: Sys, hist: History, n: Counts, a: Attempt, id: string, ts: int, depth: int)
    requires Overlapping(s, hist, n) && (id in hist.at ==> !Important(EventAt(hist, id), s.user))
    ensures Carries(s, DoServerTake(s, a, id, ts, depth), hist, n)
  {
    hide LinearAt, RoomsStand, RowsKnown, PassStands, Important, InHand, Fewer;
    var s' := DoServerTake(s, a, id, ts, depth);
    SameViewRooms(s, s', hist, n);
    SameViewWaits(s, s', hist);
    PassesStill(s, s', hist);
  }

  lemma SamePartsOv(s: Sys, s': Sys, hist: History, n: Counts)
    requires Overlapping(s, hist, n) && SameBut(s, s') && s'.db.events == s.db.events
    ensures Carries(s, s', hist, n)
  {
    hide LinearAt, RoomsStand, PassesStand, RowsKnown, OriginsApart, Important, ItemOf;
    UntouchedOv(s, s', hist, n);
  }

  // --- Every tame step -------------------------------------------------------------------------------

  lemma QueueStepOv(s: Sys, a: Action, hist: History, n: Counts)
    requires Overlapping(s, hist, n) && Invariants.Inv(s) && Enabled(s, a)
             && (a.Queue? || a.FlushResolve? || a.FlushFail?)
    ensures Carries(s, Do(s, a), hist, n)
  {
    hide Linear, RoomsStand, RowsKnown, OriginsApart, PassesStand, Untouched, DoQueue, DoFlushResolve, DoFlushFail,
        Invariants.Inv;
    match a {
      case Queue(txn, echo, room, body, ts) => QueueIsUntouched(s, hist, txn, echo, room, body, ts);
      case FlushResolve => ResolveIsUntouched(s, hist);
      case FlushFail => FailIsUntouched(s, hist);
    }
    UntouchedOv(s, Do(s, a), hist, n);
  }

  lemma QueueIsUntouched(s: Sys, hist: History, txn: string, echo: string, room: string, body: string, ts: int)
    requires Linear(hist, s.user) && (forall id | id in hist.at :: !IsLocal(id)) && IsLocal(echo)
    ensures var s' := DoQueue(s, txn, echo, room, body, ts);
            SameBut(s, s') && Untouched(s.db, s'.db, hist, s.user)
  {
    hide Linear, Untouched, QueueSend;
    QueueOv(s, hist, txn, echo, room, body, ts);
  }

  lemma FailIsUntouched(s: Sys, hist: History)
    requires Linear(hist, s.user) && (forall id | id in hist.at :: !IsLocal(id))
    requires Invariants.Inv(s) && SenderAt(s, Bad)
    ensures SameBut(s, DoFlushFail(s)) && Untouched(s.db, DoFlushFail(s).db, hist, s.user)
  {
    hide Linear, Untouched, FailSend, Invariants.Inv;
    PendingEcho(s);
    FailOv(s.db, hist, s.user, s.sender.todo[0].txn);
  }

  lemma ResolveIsUntouched(s: Sys, hist: History)
    requires Linear(hist, s.user) && (forall id | id in hist.at :: !IsLocal(id)) && OriginsApart(s.origin, hist, s.user)
    requires Invariants.Inv(s) && s.sender.At? && s.sender.todo != [] && s.sender.stage.Got?
    ensures SameBut(s, DoFlushResolve(s)) && Untouched(s.db, DoFlushResolve(s).db, hist, s.user)
  {
    hide Linear, Untouched, ResolveSend, Invariants.Inv, OriginsApart;
    PendingEcho(s);
    OriginId(s);
    ResolveApart(s.origin, hist, s.user, s.sender.stage.id);
    ResolveOv(s.db, hist, s.user, s.sender.todo[0].txn, s.sender.stage.id);
  }

  lemma ResolveApart(origin: map<string, TxnKey>, hist: History, user: string, id: string)
    requires Linear(hist, user) && OriginsApart(origin, hist, user) && id in origin
    ensures id in hist.at ==> !Important(EventAt(hist, id), user)
  {
  }

  lemma PendingEcho(s: Sys)
    requires Invariants.Inv(s) && s.sender.At?
    ensures s.sender.todo != []
    ensures var txn := s.sender.todo[0].txn;
            && txn in s.db.pending && IsLocal(s.db.pending[txn].echo)
            && s.db.pending[txn].echo in s.db.events && s.db.events[s.db.pending[txn].echo].ev.ty == Message
  {
    Steps.SentIsPending(s);
    assert Invariants.EchoOf(s.db, s.ledger, s.sender.todo[0].txn, Sending);
  }

  lemma OriginId(s: Sys)
    requires Invariants.Inv(s) && s.sender.At? && s.sender.stage.Got?
    ensures s.sender.stage.id in s.origin
  {
    Steps.SentIsPending(s);
  }

  predicate Plain(a: Action)
  {
    Steps.OnlySends(a) || (Steps.OnlyLoops(a) && !a.LoopFold? && !a.LoopJoin?) || a.ServerPublish?
  }

  lemma PlainOv(s: Sys, a: Action, hist: History, n: Counts)
    requires Overlapping(s, hist, n) && Enabled(s, a) && Plain(a)
    ensures Carries(s, Do(s, a), hist, n)
  {
    hide Do, Enabled, Overlapping;
    PlainFrame(s, a);
    SamePartsOv(s, Do(s, a), hist, n);
  }

  lemma PlainFrame(s: Sys, a: Action)
    requires Enabled(s, a) && Plain(a)
    ensures SameBut(s, Do(s, a)) && Do(s, a).db.events == s.db.events
  {
    hide Do, Enabled, SameBut;
    if Steps.OnlySends(a) {
      SendsFrame(s, a);
    } else if Steps.OnlyLoops(a) {
      LoopsFrame(s, a);
    } else {
      PublishFrame(s, a);
    }
  }

  lemma SendsFrame(s: Sys, a: Action)
    requires Enabled(s, a) && Steps.OnlySends(a)
    ensures SameBut(s, Do(s, a)) && Do(s, a).db.events == s.db.events
  {
    hide Do, Enabled;
    Frames.SendingFrame(s, a);
  }

  lemma PublishFrame(s: Sys, a: Action)
    requires Enabled(s, a) && a.ServerPublish?
    ensures SameBut(s, Do(s, a)) && Do(s, a).db.events == s.db.events
  {
  }

  lemma LoopsFrame(s: Sys, a: Action)
    requires Enabled(s, a) && Steps.OnlyLoops(a) && !a.LoopFold? && !a.LoopJoin?
    ensures SameBut(s, Do(s, a)) && Do(s, a).db.events == s.db.events
  {
    hide Do, Enabled;
    Frames.LoopFrame(s, a);
    Runs.OthersKeepEngine(s, a);
  }

  predicate MovesGroups(a: Action)
  {
    a.FlushSeal? || a.CreateRoomGroup? || a.Invite? || a.LoopJoin?
  }

  /** Such a step changes the engine, and otherwise nothing the invariant reads. */
  predicate OnlyEngine(s: Sys, s': Sys)
  {
    && s'.user == s.user && s'.db == s.db && s'.passes == s.passes && s'.origin == s.origin
    && s'.lost == s.lost && s'.missed == s.missed
  }

  lemma EngineFrame(s: Sys, a: Action)
    requires Enabled(s, a) && MovesGroups(a)
    ensures OnlyEngine(s, Do(s, a))
  {
    hide Encrypt, CreateGroup, AddMember, HasGroup;
    if a.LoopJoin? {
      Frames.JoinStepIs(s, a.p, a.accept, a.put);
      JoinFrame(s, a.p, a.accept, a.put);
    }
  }

  lemma JoinFrame(s: Sys, p: nat, accept: bool, put: bool)
    requires JoiningAt(s, p, true)
    ensures OnlyEngine(s, DoLoopJoin(s, p, accept, put))
  {
    hide JoinFromWelcome;
  }

  lemma EngineQuiet(s: Sys, a: Action, hist: History, n: Counts)
    requires Overlapping(s, hist, n) && Enabled(s, a) && Tame(s, a, hist, n, n) && MovesGroups(a)
    ensures Quiet(s, Do(s, a).engine, hist)
  {
    hide Overlapping, Quiet, Enabled, Do;
    ShapeOf(s, hist, n);
    if a.LoopJoin? {
      Frames.JoinStepIs(s, a.p, a.accept, a.put);
      JoinQuiet(s, hist, n, a.p, a.accept, a.put);
    } else {
      OwnGroupsQuiet(s, a, hist, n);
    }
  }

  lemma OwnGroupsQuiet(s: Sys, a: Action, hist: History, n: Counts)
    requires Linear(hist, s.user) && n.Keys == hist.rooms.Keys
    requires Enabled(s, a) && Tame(s, a, hist, n, n) && (a.FlushSeal? || a.CreateRoomGroup? || a.Invite?)
    ensures Quiet(s, Do(s, a).engine, hist)
  {
    hide Linear, Quiet, Encrypt, CreateGroup, AddMember, HasGroup;
    match a
    case FlushSeal(io) => SealQuiet(s, hist, io);
    case CreateRoomGroup(room, put) => GroupQuiet(s, hist, room, "", false, put);
    case Invite(room, invitee, accept, put) => GroupQuiet(s, hist, room, invitee, accept, put);
  }

  lemma EngineOv(s: Sys, a: Action, hist: History, n: Counts)
    requires Overlapping(s, hist, n) && Enabled(s, a) && Tame(s, a, hist, n, n) && MovesGroups(a)
    ensures Carries(s, Do(s, a), hist, n)
  {
    hide Linear, RoomsStand, RowsKnown, OriginsApart, PassesStand, Quiet, Do, Enabled, Tame;
    EngineFrame(s, a);
    EngineQuiet(s, a, hist, n);
    QuietOv(s, Do(s, a), hist, n);
  }

  lemma ArriveOv(s: Sys, a: Action, hist: History, n: Counts, n': Counts)
    requires Overlapping(s, hist, n) && Enabled(s, a) && Tame(s, a, hist, n, n') && (a.LoopFold? || a.Backfill?)
    ensures Carries(s, Do(s, a), hist, n')
  {
    hide Linear, RoomsStand, RowsKnown, OriginsApart, PassesStand, BatchBrings, ApplyEvents, Batch, FromServer;
    BatchOv(s, Do(s, a), hist, n, if a.LoopFold? then Batch(s.loops[a.p].resp.rooms) else a.batch, n');
  }

  lemma PassOv(s: Sys, a: Action, hist: History, n: Counts)
    requires Overlapping(s, hist, n) && Invariants.Inv(s) && Enabled(s, a) && Tame(s, a, hist, n, n)
    requires a.PassBegin? || a.PassStep?
    ensures Carries(s, Do(s, a), hist, n)
  {
    hide Overlapping, DoPassStep, DoPassBegin, CommitLoads, Linear, Invariants.Inv;
    AgreeOf(s);
    match a
    case PassBegin(p) => BeginOv(s, hist, n, p);
    case PassStep(p, io) => PassStepOv(s, hist, n, p, io);
  }

  lemma PassErrorOv(s: Sys, hist: History, n: Counts, p: nat)
    requires Overlapping(s, hist, n) && p in s.passes && s.passes[p].stage == Check
    ensures Carries(s, s.(passes := s.passes - {p}), hist, n)
  {
    hide Linear, RoomsStand, RowsKnown, OriginsApart, PassesStand, PassStands, InHand;
    HandsSame(s.passes, s.passes - {p}, p);
    OnePassChanges(s, s.(passes := s.passes - {p}), hist, n, p);
  }

  lemma AgreeOf(s: Sys)
    requires Invariants.Inv(s)
    ensures CurrentState.RowsAgree(s.db)
  {
  }

  lemma AbruptOv(s: Sys, a: Action, hist: History, n: Counts)
    requires Overlapping(s, hist, n) && Enabled(s, a) && Tame(s, a, hist, n, n)
    requires a.ServerTake? || a.Crash? || a.PassError?
    ensures Carries(s, Do(s, a), hist, n)
  {
    hide Linear, Overlapping, DoServerTake, DoCrash;
    match a
    case ServerTake(at, id, ts, depth) => TakeOv(s, hist, n, at, id, ts, depth);
    case Crash => CrashOv(s, hist, n);
    case PassError(p) => PassErrorOv(s, hist, n, p);
  }

  /** Every tame step, whatever activities it interleaves, keeps all of it. */
  lemma StepOv(s: Sys, a: Action, hist: History, n: Counts, n': Counts)
    requires Overlapping(s, hist, n) && Invariants.Inv(s) && Enabled(s, a) && Tame(s, a, hist, n, n')
    ensures Carries(s, Do(s, a), hist, n')
  {
    ShapeOf(s, hist, n);
    SameCounts(s, a, hist, n, n');
    hide Do, Enabled, Tame, Invariants.Inv, Overlapping, Linear;
    if a.LoopFold? || a.Backfill? {
      ArriveOv(s, a, hist, n, n');
    } else if a.PassBegin? || a.PassStep? {
      PassOv(s, a, hist, n);
    } else if MovesGroups(a) {
      EngineOv(s, a, hist, n);
    } else if a.Queue? || a.FlushResolve? || a.FlushFail? {
      QueueStepOv(s, a, hist, n);
    } else if a.ServerTake? || a.Crash? || a.PassError? {
      AbruptOv(s, a, hist, n);
    } else {
      PlainOv(s, a, hist, n);
    }
  }

  lemma ShapeOf(s: Sys, hist: History, n: Counts)
    requires Overlapping(s, hist, n)
    ensures Linear(hist, s.user) && n.Keys == hist.rooms.Keys
  {
    hide Linear, RoomsStand, PassesStand, RowsKnown, OriginsApart;
  }

  lemma SameCounts(s: Sys, a: Action, hist: History, n: Counts, n': Counts)
    requires Linear(hist, s.user) && n.Keys == hist.rooms.Keys && Enabled(s, a) && Tame(s, a, hist, n, n')
    ensures n'.Keys == n.Keys && (!a.LoopFold? && !a.Backfill? ==> n' == n)
  {
    hide Linear, Enabled, BatchBrings;
  }
}
