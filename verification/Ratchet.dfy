/** The write-ahead ratchet: what the engine has released is never released
    again, across failed keystore writes and crashes, because the advanced device
    is saved before the result leaves the engine. */
module Ratchet {
  import opened Base
  import opened Mls
  import Inbound

  datatype Op =
    | Seal(room: string, text: string, io: Io)
    | Open(room: string, cipher: Cipher, io: Io)
    | Apply(room: string, commit: Commit, io: Io)
    | Join(welcome: Welcome, accept: bool, put: bool)
    | Create(room: string, put: bool)
    | Add(room: string, invitee: string, accept: bool, put: bool)
    | Crash

  /** What the engine has handed out so far, oldest first. */
  datatype Released = Released(sealed: seq<Sealed>, plain: seq<Sealed>)

  function Step(e: Engine, op: Op): Engine
  {
    match op
    case Seal(room, text, io) => Encrypt(e, room, text, io).0
    case Open(room, cipher, io) => Decrypt(e, room, cipher, io).0
    case Apply(room, commit, io) => ProcessCommit(e, room, commit, io).0
    case Join(welcome, accept, put) => JoinFromWelcome(e, welcome, accept, put).0
    case Create(room, put) => CreateGroup(e, room, put).0
    case Add(room, invitee, accept, put) => AddMember(e, room, invitee, accept, put).0
    case Crash => Restart(e)
  }

  function Release(e: Engine, op: Op, out: Released): Released
  {
    match op
    case Seal(room, text, io) =>
      var c := Encrypt(e, room, text, io).1;
      if c.Some? then out.(sealed := out.sealed + [c.value]) else out
    case Open(room, cipher, io) =>
      if Decrypt(e, room, cipher, io).1.Some? then out.(plain := out.plain + [cipher.sealed]) else out
    case _ => out
  }

  function Run(e: Engine, ops: seq<Op>, out: Released): (Engine, Released)
    decreases |ops|
  {
    if ops == [] then (e, out)
    else Run(Step(e, ops[0]), ops[1..], Release(e, ops[0], out))
  }

  predicate SameKey(a: Sealed, b: Sealed)
  {
    a.room == b.room && KeyOf(a) == KeyOf(b)
  }

  predicate NoKeyTwice(s: seq<Sealed>)
  {
    forall i, j | 0 <= i < j < |s| :: !SameKey(s[i], s[j])
  }

  predicate Fresh(out: Released)
  {
    NoKeyTwice(out.sealed) && NoKeyTwice(out.plain)
  }

  // --- What has been released is behind the engine ---------------------------------

  /** The device has moved past the key `c` was sealed under. */
  predicate Superseded(c: Sealed, d: Device)
  {
    && c.room in d.groups
    && c.sender == d.user
    && (c.epoch < d.groups[c.room].epoch || (c.epoch == d.groups[c.room].epoch && c.generation < d.groups[c.room].next))
  }

  /** The device cannot open `c` again. */
  predicate Spent(c: Sealed, d: Device)
  {
    && c.room in d.groups
    && c.sender != d.user && c.text.Some?
    && (c.epoch < d.groups[c.room].epoch || (c.epoch == d.groups[c.room].epoch && KeyOf(c) in d.groups[c.room].spent))
  }

  ghost predicate Behind(out: Released, d: Device)
  {
    && (forall i | 0 <= i < |out.sealed| :: Superseded(out.sealed[i], d))
    && (forall i | 0 <= i < |out.plain| :: Spent(out.plain[i], d))
  }

  /** Both memory and keystore are past everything released. */
  ghost predicate Ahead(e: Engine, out: Released)
  {
    && e.device.user == e.saved.user
    && Behind(out, e.device) && Behind(out, e.saved)
    && Fresh(out)
  }

  /** The operation puts a group at generation zero of an epoch. */
  predicate Starts(e: Engine, op: Op, room: string, epoch: nat)
  {
    match op
    case Join(w, accept, _) => accept && w == Invitation(room, epoch, e.device.user)
    case Create(r, _) => r == room && epoch == 0
    case _ => false
  }

  /** Everything released in the room is from before that epoch. */
  ghost predicate Past(out: Released, room: string, epoch: nat)
  {
    && (forall i | 0 <= i < |out.sealed| :: out.sealed[i].room == room ==> out.sealed[i].epoch < epoch)
    && (forall i | 0 <= i < |out.plain| :: out.plain[i].room == room ==> out.plain[i].epoch < epoch)
  }

  ghost predicate Permitted(e: Engine, op: Op, out: Released)
  {
    forall room, epoch | Starts(e, op, room, epoch) :: Past(out, room, epoch)
  }

  ghost predicate PermittedRun(e: Engine, ops: seq<Op>, out: Released)
    decreases |ops|
  {
    ops == [] || (Permitted(e, ops[0], out) && PermittedRun(Step(e, ops[0]), ops[1..], Release(e, ops[0], out)))
  }

  lemma StartKeepsAhead(e: Engine, op: Op, out: Released, room: string, epoch: nat)
    requires Ahead(e, out) && Starts(e, op, room, epoch) && Past(out, room, epoch)
    ensures Ahead(Step(e, op), out)
  {
  }

  lemma SealKeepsAhead(e: Engine, room: string, text: string, io: Io, out: Released)
    requires Ahead(e, out)
    ensures var op := Seal(room, text, io); Ahead(Step(e, op), Release(e, op, out))
  {
  }

  lemma OpenKeepsAhead(e: Engine, room: string, cipher: Cipher, io: Io, out: Released)
    requires Ahead(e, out)
    ensures var op := Open(room, cipher, io); Ahead(Step(e, op), Release(e, op, out))
  {
  }

  /** Groups only move on. */
  lemma MoveKeepsAhead(e: Engine, op: Op, out: Released)
    requires Ahead(e, out) && (op.Apply? || op.Add? || op.Crash?)
    ensures Ahead(Step(e, op), Release(e, op, out))
  {
    hide NoKeyTwice;
  }

  lemma StepKeepsAhead(e: Engine, op: Op, out: Released)
    requires Ahead(e, out) && Permitted(e, op, out)
    ensures Ahead(Step(e, op), Release(e, op, out))
  {
    hide Ahead, Past;
    match op
    case Seal(room, text, io) => SealKeepsAhead(e, room, text, io, out);
    case Open(room, cipher, io) => OpenKeepsAhead(e, room, cipher, io, out);
    case Join(w, accept, _) =>
      if accept && w.Invitation? && w.invitee == e.device.user {
        StartKeepsAhead(e, op, out, w.room, w.epoch);
      }
    case Create(room, _) => StartKeepsAhead(e, op, out, room, 0);
    case _ => MoveKeepsAhead(e, op, out);
  }

  lemma {:induction false} RunKeepsAhead(e: Engine, ops: seq<Op>, out: Released)
    requires Ahead(e, out) && PermittedRun(e, ops, out)
    ensures Ahead(Run(e, ops, out).0, Run(e, ops, out).1)
    decreases |ops|
  {
    if ops != [] {
      StepKeepsAhead(e, ops[0], out);
      RunKeepsAhead(Step(e, ops[0]), ops[1..], Release(e, ops[0], out));
    }
  }

  // --- Runs that start no group --------------------------------------------------------

  predicate Quiet(ops: seq<Op>)
  {
    forall i | 0 <= i < |ops| :: !ops[i].Join? && !ops[i].Create?
  }

  lemma {:induction false} QuietIsPermitted(e: Engine, ops: seq<Op>, out: Released)
    requires Quiet(ops)
    ensures PermittedRun(e, ops, out)
    decreases |ops|
  {
    if ops != [] {
      QuietIsPermitted(Step(e, ops[0]), ops[1..], Release(e, ops[0], out));
    }
  }

  lemma {:induction false} RunAppends(e: Engine, a: seq<Op>, b: seq<Op>, out: Released)
    ensures Run(e, a + b, out) == Run(Run(e, a, out).0, b, Run(e, a, out).1)
    decreases |a|
  {
    if a == [] {
      assert a + b == b;
    } else {
      assert (a + b)[1..] == a[1..] + b;
      RunAppends(Step(e, a[0]), a[1..], b, Release(e, a[0], out));
    }
  }

  /** Commits of somebody else that take a group `n` epochs on. */
  function Commits(room: string, from: nat, n: nat, author: string): seq<Op>
    decreases n
  {
    if n == 0 then [] else [Apply(room, Advance(room, from, author), Works)] + Commits(room, from + 1, n - 1, author)
  }

  lemma {:induction false} CommitsCarry(e: Engine, room: string, n: nat, author: string, out: Released)
    requires HasGroup(e, room) && author != e.device.user
    ensures var g := e.device.groups[room];
            var ops := Commits(room, g.epoch, n, author);
            var (e', out') := Run(e, ops, out);
            && Quiet(ops) && out' == out && e'.device.user == e.device.user && HasGroup(e', room)
            && e'.device.groups[room].epoch == g.epoch + n && e'.device.groups[room].spent == g.spent
            && (g.next == 0 ==> e'.device.groups[room].next == 0)
    decreases n
  {
    if n > 0 {
      var g := e.device.groups[room];
      var op := Apply(room, Advance(room, g.epoch, author), Works);
      CommitsCarry(Step(e, op), room, n - 1, author, out);
      assert Commits(room, g.epoch, n, author)[1..] == Commits(room, g.epoch + 1, n - 1, author);
    }
  }

  function Seals(room: string, n: nat): seq<Op>
  {
    if n == 0 then [] else Seals(room, n - 1) + [Seal(room, "", Works)]
  }

  /** Sealing `n` times from generation zero releases the generations below `n`. */
  lemma {:induction false} SealsRelease(e: Engine, room: string, n: nat, out: Released)
    requires HasGroup(e, room) && e.device.groups[room].next == 0
    ensures var g := e.device.groups[room];
            var (e', out') := Run(e, Seals(room, n), out);
            && Quiet(Seals(room, n)) && HasGroup(e', room) && e'.device.user == e.device.user
            && e'.device.groups[room] == g.(next := n)
            && |out'.sealed| == |out.sealed| + n && out'.sealed[..|out.sealed|] == out.sealed
            && (n > 0 ==> out'.sealed[|out'.sealed| - 1] == Sealed(room, g.epoch, e.device.user, n - 1, Some("")))
    decreases n
  {
    if n > 0 {
      SealsRelease(e, room, n - 1, out);
      var last := [Seal(room, "", Works)];
      RunAppends(e, Seals(room, n - 1), last, out);
      var (e1, out1) := Run(e, Seals(room, n - 1), out);
      assert last[1..] == [] && Run(e1, last, out1) == (Step(e1, last[0]), Release(e1, last[0], out1));
    }
  }

  /** A group started at or before the epoch of something already released can be
      taken to release it again. */
  lemma SealedAgain(e: Engine, room: string, c: Sealed, i: nat, out: Released) returns (more: seq<Op>)
    requires HasGroup(e, room) && i < |out.sealed| && out.sealed[i] == c && c.room == room && c.sender == e.device.user
    requires e.device.groups[room].next == 0 && e.device.groups[room].epoch <= c.epoch
    ensures Quiet(more) && !Fresh(Run(e, more, out).1)
  {
    var author := e.device.user + "'";
    assert |author| != |e.device.user|;
    var climb := Commits(room, e.device.groups[room].epoch, c.epoch - e.device.groups[room].epoch, author);
    CommitsCarry(e, room, c.epoch - e.device.groups[room].epoch, author, out);
    var e1 := Run(e, climb, out).0;
    SealsRelease(e1, room, c.generation + 1, out);
    more := climb + Seals(room, c.generation + 1);
    RunAppends(e, climb, Seals(room, c.generation + 1), out);
    var out2 := Run(e, more, out).1;
    assert out2.sealed[i] == out2.sealed[..|out.sealed|][i] == c;
    assert SameKey(out2.sealed[i], out2.sealed[|out2.sealed| - 1]);
  }

  lemma OpenedAgain(e: Engine, room: string, c: Sealed, i: nat, out: Released) returns (more: seq<Op>)
    requires HasGroup(e, room) && i < |out.plain| && out.plain[i] == c && c.room == room && c.sender != e.device.user
             && c.text.Some?
    requires e.device.groups[room].spent == {} && e.device.groups[room].epoch <= c.epoch
    ensures Quiet(more) && !Fresh(Run(e, more, out).1)
  {
    var author := e.device.user + "'";
    assert |author| != |e.device.user|;
    var climb := Commits(room, e.device.groups[room].epoch, c.epoch - e.device.groups[room].epoch, author);
    CommitsCarry(e, room, c.epoch - e.device.groups[room].epoch, author, out);
    var e1 := Run(e, climb, out).0;
    var open := [Open(room, Genuine(c), Works)];
    more := climb + open;
    RunAppends(e, climb, open, out);
    assert open[1..] == [] && Run(e1, open, out) == (Step(e1, open[0]), Release(e1, open[0], out));
    var out2 := Run(e, more, out).1;
    assert out2.plain[i] == c && out2.plain[|out.plain|] == c && SameKey(c, c);
  }

  ghost predicate StaysFresh(e: Engine, out: Released)
  {
    forall more | Quiet(more) :: Fresh(Run(e, more, out).1)
  }

  lemma AheadStaysFresh(e: Engine, out: Released)
    requires Ahead(e, out)
    ensures StaysFresh(e, out)
  {
    forall more | Quiet(more) ensures Fresh(Run(e, more, out).1) {
      QuietIsPermitted(e, more, out);
      RunKeepsAhead(e, more, out);
    }
  }

  /** Starting a group is safe, in that nothing released is ever released again as
      long as no other group is started, if and only if everything released in the
      room is from before the epoch it starts at. */
  lemma StartIsSafeIff(e: Engine, op: Op, out: Released, room: string, epoch: nat)
    requires Ahead(e, out) && Starts(e, op, room, epoch)
    ensures StaysFresh(Step(e, op), Release(e, op, out)) <==> Past(out, room, epoch)
  {
    var e1 := Step(e, op);
    assert Release(e, op, out) == out && HasGroup(e1, room) && e1.device.groups[room] == Group(epoch, 0, {});
    if Past(out, room, epoch) {
      StartKeepsAhead(e, op, out, room, epoch);
      AheadStaysFresh(e1, out);
    } else if i :| 0 <= i < |out.sealed| && out.sealed[i].room == room && out.sealed[i].epoch >= epoch {
      assert Superseded(out.sealed[i], e.device);
      var more := SealedAgain(e1, room, out.sealed[i], i, out);
      assert !StaysFresh(e1, out);
    } else {
      var i :| 0 <= i < |out.plain| && out.plain[i].room == room && out.plain[i].epoch >= epoch;
      assert Spent(out.plain[i], e.device);
      var more := OpenedAgain(e1, room, out.plain[i], i, out);
      assert !StaysFresh(e1, out);
    }
  }

  // --- Over whole runs ---------------------------------------------------------------------

  /** No prefix of the run, continued without starting a group, releases a
      ciphertext or opens a message under a key used before. */
  ghost predicate NeverRepeats(e: Engine, ops: seq<Op>, out: Released)
  {
    forall n, more | 0 <= n <= |ops| && Quiet(more) :: Fresh(Run(e, ops[..n] + more, out).1)
  }

  lemma NeverRepeatsStep(e: Engine, ops: seq<Op>, out: Released)
    requires ops != []
    ensures NeverRepeats(e, ops, out) <==>
            StaysFresh(e, out) && NeverRepeats(Step(e, ops[0]), ops[1..], Release(e, ops[0], out))
  {
    var e1, tail, out1 := Step(e, ops[0]), ops[1..], Release(e, ops[0], out);
    forall n, more | 0 <= n < |ops| && Quiet(more)
      ensures Run(e, ops[..n + 1] + more, out) == Run(e1, tail[..n] + more, out1)
    {
      assert (ops[..n + 1] + more)[1..] == tail[..n] + more;
    }
    forall more: seq<Op> ensures ops[..0] + more == more {
    }
    if StaysFresh(e, out) && NeverRepeats(e1, tail, out1) {
      forall n, more | 0 <= n <= |ops| && Quiet(more) ensures Fresh(Run(e, ops[..n] + more, out).1) {
        assert n > 0 ==> Fresh(Run(e1, tail[..n - 1] + more, out1).1);
      }
    }
    if NeverRepeats(e, ops, out) {
      forall more | Quiet(more) ensures Fresh(Run(e, more, out).1) {
        assert Fresh(Run(e, ops[..0] + more, out).1);
      }
      forall n, more | 0 <= n <= |tail| && Quiet(more) ensures Fresh(Run(e1, tail[..n] + more, out1).1) {
        assert Fresh(Run(e, ops[..n + 1] + more, out).1);
      }
    }
  }

  lemma {:induction false} NeverRepeatsIff(e: Engine, ops: seq<Op>, out: Released)
    requires Ahead(e, out)
    ensures NeverRepeats(e, ops, out) <==> PermittedRun(e, ops, out)
    decreases |ops|
  {
    AheadStaysFresh(e, out);
    if ops == [] {
      forall n, more | 0 <= n <= |ops| && Quiet(more) ensures Fresh(Run(e, ops[..n] + more, out).1) {
        assert ops[..n] + more == more;
      }
    } else {
      var e1, out1 := Step(e, ops[0]), Release(e, ops[0], out);
      NeverRepeatsStep(e, ops, out);
      if Permitted(e, ops[0], out) {
        StepKeepsAhead(e, ops[0], out);
        NeverRepeatsIff(e1, ops[1..], out1);
      } else {
        var room, epoch :| Starts(e, ops[0], room, epoch) && !Past(out, room, epoch);
        StartIsSafeIff(e, ops[0], out, room, epoch);
        var more :| Quiet(more) && !Fresh(Run(e1, more, out1).1);
        assert ops[1..][..0] + more == more;
        assert !NeverRepeats(e1, ops[1..], out1);
      }
    }
  }

  /** Over any operations, failed keystore writes and crashes, no two ciphertexts
      ever released share room, epoch and generation and no message key ever yields
      its plaintext twice, now or later, if and only if no group is started at or
      before an epoch something was released in. */
  lemma WriteAheadRatchetIff(user: string, ops: seq<Op>)
    ensures var initial := Engine(Device(user, map[]), Device(user, map[]));
            NeverRepeats(initial, ops, Released([], [])) <==> PermittedRun(initial, ops, Released([], []))
  {
    NeverRepeatsIff(Engine(Device(user, map[]), Device(user, map[])), ops, Released([], []));
  }

  /** A caller that starts a group only while none is held needs no other check. */
  lemma HeldCheckSuffices(e: Engine, op: Op, out: Released)
    requires Ahead(e, out)
    requires forall room, epoch | Starts(e, op, room, epoch) :: !HasGroup(e, room)
    ensures Permitted(e, op, out)
  {
    assert forall i | 0 <= i < |out.sealed| :: Superseded(out.sealed[i], e.device);
    assert forall i | 0 <= i < |out.plain| :: Spent(out.plain[i], e.device);
  }

  /** The client makes that check only for a Welcome that names its room: delivered
      twice without a name, one Welcome makes the engine release the same key twice. */
  lemma UnnamedWelcomeRepeatsKey(user: string, room: string, text: string)
    ensures var e0 := Engine(Device(user, map[]), Device(user, map[]));
            var list := [Inbound.ToDevice(true, Some(Invitation(room, 1, user)), None)];
            var (e1, c1) := Encrypt(Inbound.ApplyToDevice(e0, list, []).0, room, text, Works);
            var (e2, c2) := Encrypt(Inbound.ApplyToDevice(e1, list, []).0, room, text, Works);
            c1.Some? && c1 == c2
  {
    var list := [Inbound.ToDevice(true, Some(Invitation(room, 1, user)), None)];
    assert list[1..] == [];
  }

  // --- Epochs ---------------------------------------------------------------------------------

  ghost predicate KeepsEpochs(e: Engine, e': Engine)
  {
    forall r | HasGroup(e, r) :: HasGroup(e', r) && e.device.groups[r].epoch <= e'.device.groups[r].epoch
  }

  /** The operation changes the device in memory and tries to save it. */
  predicate Mutates(e: Engine, op: Op)
  {
    match op
    case Seal(room, _, io) => HasGroup(e, room) && !io.LoadFails?
    case Open(room, cipher, io) => CanOpen(e.device, room, cipher) && !io.LoadFails?
    case Apply(room, commit, io) => CanApply(e.device, room, commit) && !io.LoadFails?
    case Join(w, accept, _) => accept && w.Invitation? && w.invitee == e.device.user
    case Create(_, _) => true
    case Add(room, _, accept, _) => HasGroup(e, room) && accept
    case Crash => false
  }

  predicate WriteSucceeds(op: Op)
  {
    match op
    case Seal(_, _, io) => io.Works?
    case Open(_, _, io) => io.Works?
    case Apply(_, _, io) => io.Works?
    case Join(_, _, put) => put
    case Create(_, put) => put
    case Add(_, _, _, put) => put
    case Crash => false
  }

  /** The rooms whose group the operation takes to a later epoch or newly holds. */
  function Raised(e: Engine, op: Op): set<string>
  {
    match op
    case Apply(room, _, _) => if Mutates(e, op) then {room} else {}
    case Add(room, _, _, _) => if Mutates(e, op) then {room} else {}
    case Join(w, _, _) =>
      if Mutates(e, op) && (!HasGroup(e, w.room) || e.device.groups[w.room].epoch < w.epoch) then {w.room} else {}
    case Create(room, _) => if HasGroup(e, room) then {} else {room}
    case _ => {}
  }

  /** The rooms raised since the last write that succeeded. */
  function RaisedSince(e: Engine, op: Op, raised: set<string>): set<string>
  {
    if op.Crash? || (Mutates(e, op) && WriteSucceeds(op)) then {} else raised + Raised(e, op)
  }

  /** A started group is no older than the one it replaces, and no crash comes after
      a group was raised and before a write succeeded. */
  ghost predicate NotBack(e: Engine, op: Op, raised: set<string>)
  {
    && (forall room, epoch | Starts(e, op, room, epoch) && HasGroup(e, room) :: e.device.groups[room].epoch <= epoch)
    && (op.Crash? ==> raised == {})
  }

  ghost predicate NotBackRun(e: Engine, ops: seq<Op>, raised: set<string>)
    decreases |ops|
  {
    ops == [] ||
    (NotBack(e, ops[0], raised) && NotBackRun(Step(e, ops[0]), ops[1..], RaisedSince(e, ops[0], raised)))
  }

  /** The keystore lags exactly in the rooms raised since. */
  ghost predicate LagsIn(e: Engine, raised: set<string>)
  {
    && e.saved.groups.Keys <= e.device.groups.Keys
    && (forall r | r in raised :: HasGroup(e, r))
    && (forall r | HasGroup(e, r) ::
          if r in raised then r in e.saved.groups ==> e.saved.groups[r].epoch < e.device.groups[r].epoch
          else r in e.saved.groups && e.saved.groups[r].epoch == e.device.groups[r].epoch)
  }

  lemma StartNotBack(e: Engine, op: Op, raised: set<string>)
    requires NotBack(e, op, raised)
    ensures op.Join? && Mutates(e, op) && HasGroup(e, op.welcome.room) ==>
              e.device.groups[op.welcome.room].epoch <= op.welcome.epoch
    ensures op.Create? && HasGroup(e, op.room) ==> e.device.groups[op.room].epoch == 0
  {
    if op.Join? && Mutates(e, op) {
      assert Starts(e, op, op.welcome.room, op.welcome.epoch);
    }
    if op.Create? {
      assert Starts(e, op, op.room, 0);
    }
  }

  lemma LagKept(e: Engine, op: Op, raised: set<string>)
    requires LagsIn(e, raised) && NotBack(e, op, raised)
    ensures LagsIn(Step(e, op), RaisedSince(e, op, raised))
  {
    StartNotBack(e, op, raised);
  }

  lemma StepKeepsEpochsIff(e: Engine, op: Op, raised: set<string>)
    requires LagsIn(e, raised)
    ensures KeepsEpochs(e, Step(e, op)) <==> NotBack(e, op, raised)
  {
    var e' := Step(e, op);
    if KeepsEpochs(e, e') {
      forall room, epoch | Starts(e, op, room, epoch) && HasGroup(e, room)
        ensures e.device.groups[room].epoch <= epoch
      {
        assert e'.device.groups[room] == Group(epoch, 0, {});
      }
      assert op.Crash? ==> forall r | r in raised :: HasGroup(e, r) && HasGroup(e', r);
    }
    if NotBack(e, op, raised) {
      StartNotBack(e, op, raised);
    }
  }

  function StateAt(e: Engine, ops: seq<Op>, i: nat): Engine
    requires i <= |ops|
    decreases |ops|
  {
    if i == 0 then e else StateAt(Step(e, ops[0]), ops[1..], i - 1)
  }

  ghost predicate KeepsAt(e: Engine, ops: seq<Op>, i: nat)
    requires i < |ops|
  {
    KeepsEpochs(StateAt(e, ops, i), StateAt(e, ops, i + 1))
  }

  lemma {:induction false} KeepsAllIff(e: Engine, ops: seq<Op>, raised: set<string>)
    requires LagsIn(e, raised)
    ensures (forall i: nat | i < |ops| :: KeepsAt(e, ops, i)) <==> NotBackRun(e, ops, raised)
    decreases |ops|
  {
    if ops != [] {
      var e1, tail := Step(e, ops[0]), ops[1..];
      StepKeepsEpochsIff(e, ops[0], raised);
      assert StateAt(e, ops, 0) == e && StateAt(e, ops, 1) == StateAt(e1, tail, 0) == e1;
      assert KeepsAt(e, ops, 0) == KeepsEpochs(e, e1);
      forall i: nat | i < |tail| ensures KeepsAt(e, ops, i + 1) == KeepsAt(e1, tail, i) {
      }
      if NotBack(e, ops[0], raised) {
        LagKept(e, ops[0], raised);
        KeepsAllIff(e1, tail, RaisedSince(e, ops[0], raised));
        forall i: nat | i < |ops| && NotBackRun(e, ops, raised) ensures KeepsAt(e, ops, i) {
          assert i > 0 ==> KeepsAt(e, ops, i - 1 + 1) == KeepsAt(e1, tail, i - 1);
        }
      }
    }
  }

  /** From memory and keystore that agree, no held group is ever lost or moves to an
      earlier epoch if and only if no operation starts one further back and no crash
      comes between raising a group and the next write that succeeds. */
  lemma NoRollBackIff(e: Engine, ops: seq<Op>)
    requires e.device == e.saved
    ensures (forall i: nat | i < |ops| :: KeepsAt(e, ops, i)) <==> NotBackRun(e, ops, {})
  {
    KeepsAllIff(e, ops, {});
  }
}
