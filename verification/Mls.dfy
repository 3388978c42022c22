/** The MLS engine: an abstract device following RFC 9420 plus the copy of it
    that the host keystore holds. Wire material is symbolic: a ciphertext names
    the room, epoch, sender and generation it was sealed under. */
module Mls {
  import opened Base

  /** `text` is `None` when the sealed bytes are not UTF-8. */
  datatype Sealed = Sealed(room: string, epoch: nat, sender: string, generation: nat, text: Option<string>)

  datatype Cipher = Genuine(sealed: Sealed) | Junk(raw: string)

  /** A commit is applicable at exactly the epoch it was built on (RFC 9420,
      section 12.4.2). */
  datatype Commit = Advance(room: string, base: nat, author: string) | JunkCommit(raw: string)

  /** A Welcome carries the group at the post-commit epoch (section 12.4.3.1). */
  datatype Welcome = Invitation(room: string, epoch: nat, invitee: string) | JunkWelcome(raw: string)

  /** A message key, usable once (section 9.2). */
  datatype Key = Key(epoch: nat, sender: string, generation: nat)

  datatype Group = Group(epoch: nat, next: nat, spent: set<Key>)

  datatype Device = Device(user: string, groups: map<string, Group>)

  /** `saved` is what the keystore would restore after a crash. */
  datatype Engine = Engine(device: Device, saved: Device)

  datatype AddOutcome = AddOutcome(welcome: Welcome, commit: Commit)

  function KeyOf(s: Sealed): Key
  {
    Key(s.epoch, s.sender, s.generation)
  }

  predicate HasGroup(e: Engine, room: string)
  {
    room in e.device.groups
  }

  /** The device after a mutation, and the keystore after the write that follows
      it; `put` says whether that write succeeded. */
  function Persist(e: Engine, d: Device, put: bool): Engine
  {
    Engine(d, if put then d else e.saved)
  }

  function WithGroup(d: Device, room: string, g: Group): Device
  {
    d.(groups := d.groups[room := g])
  }

  /** How an operation on a held group fares with its storage: every one loads the
      group first and writes the device back at the end. */
  datatype Io = LoadFails | SaveFails | Works

  function Encrypt(e: Engine, room: string, text: string, io: Io): (Engine, Option<Sealed>)
  {
    if room !in e.device.groups || io.LoadFails? then (e, None)
    else
      var g := e.device.groups[room];
      var c := Sealed(room, g.epoch, e.device.user, g.next, Some(text));
      var e' := Persist(e, WithGroup(e.device, room, g.(next := g.next + 1)), io.Works?);
      (e', if io.Works? then Some(c) else None)
  }

  /** Whether the device can open a ciphertext now. A device has no receiving
      ratchet for its own leaf, so it never opens what it sealed. */
  predicate CanOpen(d: Device, room: string, c: Cipher)
  {
    && room in d.groups
    && c.Genuine?
    && c.sealed.room == room
    && c.sealed.epoch == d.groups[room].epoch
    && c.sealed.sender != d.user
    && KeyOf(c.sealed) !in d.groups[room].spent
  }

  /** The key is spent even when the keystore write or the UTF-8 check then
      fails; the caller sees an error in both cases. */
  function Decrypt(e: Engine, room: string, c: Cipher, io: Io): (Engine, Option<string>)
  {
    if !CanOpen(e.device, room, c) || io.LoadFails? then (e, None)
    else
      var g := e.device.groups[room];
      var g' := g.(spent := g.spent + {KeyOf(c.sealed)});
      (Persist(e, WithGroup(e.device, room, g'), io.Works?), if io.Works? then c.sealed.text else None)
  }

  predicate CanApply(d: Device, room: string, c: Commit)
  {
    && room in d.groups
    && c.Advance?
    && c.room == room
    && c.base == d.groups[room].epoch
    && c.author != d.user
  }

  function NextEpoch(g: Group): Group
  {
    Group(g.epoch + 1, 0, g.spent)
  }

  function ProcessCommit(e: Engine, room: string, c: Commit, io: Io): (Engine, bool)
  {
    if !CanApply(e.device, room, c) || io.LoadFails? then (e, false)
    else (Persist(e, WithGroup(e.device, room, NextEpoch(e.device.groups[room])), io.Works?), io.Works?)
  }

  /** `accept` is the engine's own verdict (a spent KeyPackage, say, refuses).
      Nothing is assumed about a Welcome for a group already held: an engine
      that accepts one starts that group over. */
  function JoinFromWelcome(e: Engine, w: Welcome, accept: bool, put: bool): (Engine, bool)
  {
    if w.Invitation? && w.invitee == e.device.user && accept then
      (Persist(e, WithGroup(e.device, w.room, Group(w.epoch, 0, {})), put), put)
    else (e, false)
  }

  function CreateGroup(e: Engine, room: string, put: bool): (Engine, bool)
  {
    (Persist(e, WithGroup(e.device, room, Group(0, 0, {})), put), put)
  }

  function AddMember(e: Engine, room: string, invitee: string, accept: bool, put: bool)
    : (Engine, Option<AddOutcome>)
  {
    if room !in e.device.groups || !accept then (e, None)
    else
      var g := e.device.groups[room];
      var outcome := AddOutcome(Invitation(room, g.epoch + 1, invitee), Advance(room, g.epoch, e.device.user));
      (Persist(e, WithGroup(e.device, room, NextEpoch(g)), put), if put then Some(outcome) else None)
  }

  function Restart(e: Engine): Engine
  {
    e.(device := e.saved)
  }
}

/** The engine as the class the client holds: every operation mutates the device
    under its lock and writes the whole device to the keystore before anything
    is released. */
module E2eeEngine {
  import opened Base
  import opened Mls

  /** What the keystore has under the engine's key. */
  datatype Entry = Absent | Unreadable | Corrupt(field: string) | Kept(device: Device)

  class E2ee {
    var device: Device
    var saved: Device   // the keystore entry

    ghost function State(): Engine
      reads this
    {
      Engine(device, saved)
    }

    constructor (device: Device)
      ensures State() == Engine(device, device)
    {
      this.device := device;
      saved := device;
    }

    /** A fresh identity is of no use until the keystore has it. */
    static method Create(user: string, put: bool) returns (e: E2ee?)
      ensures e == null <==> !put
      ensures e != null ==> fresh(e) && e.State() == Engine(Device(user, map[]), Device(user, map[]))
    {
      e := null;
      if put {
        e := new E2ee(Device(user, map[]));
      }
    }

    /** A relaunch resumes from exactly what was last saved, in memory and in the
        keystore alike; nothing stored is no error, a damaged entry is one. */
    static method Restore(entry: Entry) returns (r: Result<E2ee?>)
      ensures r.Ok? <==> entry.Absent? || entry.Kept?
      ensures entry.Absent? ==> r == Ok(null)
      ensures entry.Corrupt? ==> r == Malformed(entry.field)
      ensures entry.Kept? ==> r.value != null && fresh(r.value)
      ensures entry.Kept? ==> forall e: Engine | e.saved == entry.device :: r.value.State() == Restart(e)
    {
      match entry {
        case Absent => r := Ok(null);
        case Unreadable => r := Malformed("keystore");
        case Corrupt(field) => r := Malformed(field);
        case Kept(d) =>
          var e := new E2ee(d);
          r := Ok(e);
      }
    }

    method Put(put: bool) returns (ok: bool)
      modifies this`saved
      ensures ok == put
      ensures saved == if put then device else old(saved)
    {
      if put {
        saved := device;
      }
      ok := put;
    }

    /** `ask` is false when loading the group fails. A held group is one that can
        be sealed for. */
    method HasRoom(room: string, ask: bool) returns (held: Option<bool>)
      ensures held == if ask then Some(HasGroup(State(), room)) else None
      ensures held.Some? ==> (held.value <==> forall text :: Encrypt(State(), room, text, Works).1.Some?)
    {
      held := if ask then Some(room in device.groups) else None;
      assert Encrypt(State(), room, "", Works).1.Some? <==> room in device.groups;
    }

    method Seal(room: string, text: string, io: Io) returns (c: Option<Sealed>)
      modifies this
      ensures (State(), c) == Encrypt(old(State()), room, text, io)
    {
      if room !in device.groups || io.LoadFails? {
        return None;
      }
      var g := device.groups[room];
      var sealed := Sealed(room, g.epoch, device.user, g.next, Some(text));
      device := device.(groups := device.groups[room := g.(next := g.next + 1)]);
      var ok := Put(io.Works?);
      c := if ok then Some(sealed) else None;
    }

    method Open(room: string, cipher: Cipher, io: Io) returns (text: Option<string>)
      modifies this
      ensures (State(), text) == Decrypt(old(State()), room, cipher, io)
    {
      if !CanOpen(device, room, cipher) || io.LoadFails? {
        return None;
      }
      var g := device.groups[room];
      device := device.(groups := device.groups[room := g.(spent := g.spent + {KeyOf(cipher.sealed)})]);
      var ok := Put(io.Works?);
      text := if ok then cipher.sealed.text else None;
    }

    method Apply(room: string, commit: Commit, io: Io) returns (ok: bool)
      modifies this
      ensures (State(), ok) == ProcessCommit(old(State()), room, commit, io)
    {
      if !CanApply(device, room, commit) || io.LoadFails? {
        return false;
      }
      device := device.(groups := device.groups[room := NextEpoch(device.groups[room])]);
      ok := Put(io.Works?);
    }

    method NewGroup(room: string, put: bool) returns (ok: bool)
      modifies this
      ensures (State(), ok) == CreateGroup(old(State()), room, put)
    {
      device := device.(groups := device.groups[room := Group(0, 0, {})]);
      ok := Put(put);
    }

    /** Our own commit is merged at once: the group moves before anybody else
        hears of it. */
    method Add(room: string, invitee: string, accept: bool, put: bool) returns (added: Option<AddOutcome>)
      modifies this
      ensures (State(), added) == AddMember(old(State()), room, invitee, accept, put)
    {
      if room !in device.groups || !accept {
        return None;
      }
      var g := device.groups[room];
      device := device.(groups := device.groups[room := Group(g.epoch + 1, 0, g.spent)]);
      var ok := Put(put);
      added := if ok then Some(AddOutcome(Invitation(room, g.epoch + 1, invitee),
        Advance(room, g.epoch, device.user))) else None;
    }

    method Join(w: Welcome, accept: bool, put: bool) returns (ok: bool)
      modifies this
      ensures (State(), ok) == JoinFromWelcome(old(State()), w, accept, put)
    {
      if !w.Invitation? || w.invitee != device.user || !accept {
        return false;
      }
      device := device.(groups := device.groups[w.room := Group(w.epoch, 0, {})]);
      ok := Put(put);
    }
  }
}
