/** Adding a user's devices to a group: who ends up at which epoch. */
module Welcoming {
  import opened Base
  import opened Mls

  /** How a request to the server ends; the client tells only the first apart. */
  datatype Delivery = Delivered | ReplyLost | Undelivered

  /** What the environment decides about one claimed key package: whether the
      engine takes it, whether the keystore write succeeds, and what becomes of the
      Welcome and then of the commit. */
  datatype Claim = Claim(accept: bool, put: bool, welcomed: Delivery, broadcast: Delivery)

  /** `welcomes` and `commits` are what reached the server. */
  datatype Shipped = Shipped(engine: Engine, welcomes: seq<Welcome>, commits: seq<Commit>, ok: bool)

  function Reached<A>(x: A, d: Delivery): seq<A>
  {
    if d.Undelivered? then [] else [x]
  }

  /** The first failure ends the loop; what was added before stays added. */
  function WelcomeDevices(e: Engine, room: string, invitee: string, claims: seq<Claim>): Shipped
    decreases |claims|
  {
    if claims == [] then Shipped(e, [], [], true)
    else
      var (e', added) := AddMember(e, room, invitee, claims[0].accept, claims[0].put);
      if added.None? then Shipped(e', [], [], false)
      else
        var welcomes := Reached(added.value.welcome, claims[0].welcomed);
        if !claims[0].welcomed.Delivered? then Shipped(e', welcomes, [], false)
        else
          var commits := Reached(added.value.commit, claims[0].broadcast);
          if !claims[0].broadcast.Delivered? then Shipped(e', welcomes, commits, false)
          else
            var rest := WelcomeDevices(e', room, invitee, claims[1..]);
            Shipped(rest.engine, welcomes + rest.welcomes, commits + rest.commits, rest.ok)
  }

  /** A member applies broadcast commits in order, skipping those that do not
      apply. */
  function ApplyCommits(e: Engine, room: string, commits: seq<Commit>): Engine
    decreases |commits|
  {
    if commits == [] then e else ApplyCommits(ProcessCommit(e, room, commits[0], Works).0, room, commits[1..])
  }

  function EpochOf(e: Engine, room: string): nat
    requires HasGroup(e, room)
  {
    e.device.groups[room].epoch
  }

  ghost predicate Consecutive(commits: seq<Commit>, room: string, from: nat, author: string)
  {
    forall k | 0 <= k < |commits| :: commits[k] == Advance(room, from + k, author)
  }

  /** How many claims come before the first that fails anywhere. */
  function Complete(claims: seq<Claim>): (n: nat)
    ensures n <= |claims|
  {
    if claims == [] || claims[0] != Claim(true, true, Delivered, Delivered) then 0 else 1 + Complete(claims[1..])
  }

  predicate WelcomeArrives(c: Claim)
  {
    c.accept && c.put && !c.welcomed.Undelivered?
  }

  predicate CommitArrives(c: Claim)
  {
    c.accept && c.put && c.welcomed.Delivered? && !c.broadcast.Undelivered?
  }

  /** The first claim that fails does so after the engine took the device and
      without its commit reaching the server: the device is in the group, but the
      others never learn of it. */
  predicate Strands(claims: seq<Claim>)
  {
    Complete(claims) < |claims| && claims[Complete(claims)].accept && !CommitArrives(claims[Complete(claims)])
  }

  /** Commits and Welcomes reach the server in consecutive epochs, a Welcome at most
      one ahead. */
  lemma {:induction false} ShippedInOrder(e: Engine, room: string, invitee: string, claims: seq<Claim>)
    requires HasGroup(e, room)
    ensures var out, n := WelcomeDevices(e, room, invitee, claims), Complete(claims);
            && HasGroup(out.engine, room)
            && Consecutive(out.commits, room, EpochOf(e, room), e.device.user)
            && (forall i | 0 <= i < |out.welcomes| ::
                 out.welcomes[i] == Invitation(room, EpochOf(e, room) + i + 1, invitee))
            && |out.commits| == n + (if n < |claims| && CommitArrives(claims[n]) then 1 else 0)
            && |out.welcomes| == n + (if n < |claims| && WelcomeArrives(claims[n]) then 1 else 0)
            && (out.ok <==> n == |claims|)
            && EpochOf(out.engine, room) == EpochOf(e, room) + |out.commits| + (if Strands(claims) then 1 else 0)
    decreases |claims|
  {
    if claims != [] && claims[0] == Claim(true, true, Delivered, Delivered) {
      var e' := AddMember(e, room, invitee, true, true).0;
      ShippedInOrder(e', room, invitee, claims[1..]);
      assert Complete(claims) < |claims| ==> claims[1..][Complete(claims[1..])] == claims[Complete(claims)];
    }
  }

  /** Commits that follow on from an epoch take a member that is there, or already
      past it, to their end; a member further ahead stays put. */
  lemma {:induction false} CommitsCarry(e: Engine, room: string, commits: seq<Commit>, from: nat, author: string)
    requires HasGroup(e, room) && Consecutive(commits, room, from, author) && author != e.device.user
    requires from <= EpochOf(e, room)
    ensures var e' := ApplyCommits(e, room, commits);
            && HasGroup(e', room)
            && EpochOf(e', room) == if EpochOf(e, room) < from + |commits| then from + |commits| else EpochOf(e, room)
    decreases |commits|
  {
    if commits != [] {
      assert commits[0] == Advance(room, from, author);
      var e1 := ProcessCommit(e, room, commits[0], Works).0;
      assert forall k | 0 <= k < |commits[1..]| :: commits[1..][k] == commits[k + 1];
      CommitsCarry(e1, room, commits[1..], from + 1, author);
    }
  }

  /** An earlier member at the inviter's epoch that applies the broadcast commits
      ends at the inviter's epoch exactly when the loop stranded nobody: it ran to
      the end, or stopped at a package the engine refused. */
  lemma MembersKeepUpIff(e: Engine, room: string, invitee: string, claims: seq<Claim>, member: Engine)
    requires HasGroup(e, room) && HasGroup(member, room) && member.device.user != e.device.user
    requires EpochOf(member, room) == EpochOf(e, room)
    ensures var out := WelcomeDevices(e, room, invitee, claims);
            var after := ApplyCommits(member, room, out.commits);
            && HasGroup(out.engine, room) && HasGroup(after, room)
            && (EpochOf(after, room) == EpochOf(out.engine, room) <==> !Strands(claims))
  {
    ShippedInOrder(e, room, invitee, claims);
    CommitsCarry(member, room, WelcomeDevices(e, room, invitee, claims).commits, EpochOf(e, room), e.device.user);
  }

  /** A device that joins from its Welcome and then sees all the broadcast commits,
      its own among them, ends where the earlier members end, or at the inviter's
      epoch if its own commit was never broadcast. */
  lemma NewcomersKeepUp(e: Engine, room: string, invitee: string, claims: seq<Claim>, newcomer: Engine, i: nat)
    requires HasGroup(e, room) && !HasGroup(newcomer, room)
    requires newcomer.device.user == invitee && invitee != e.device.user
    requires i < |WelcomeDevices(e, room, invitee, claims).welcomes|
    ensures var out := WelcomeDevices(e, room, invitee, claims);
            var (joined, ok) := JoinFromWelcome(newcomer, out.welcomes[i], true, true);
            var after := ApplyCommits(joined, room, out.commits);
            && ok && HasGroup(out.engine, room) && HasGroup(after, room)
            && EpochOf(after, room) == (if i < |out.commits| then EpochOf(e, room) + |out.commits|
                 else EpochOf(out.engine, room))
            && (out.ok ==> EpochOf(after, room) == EpochOf(out.engine, room))
  {
    var out := WelcomeDevices(e, room, invitee, claims);
    ShippedInOrder(e, room, invitee, claims);
    var joined := JoinFromWelcome(newcomer, out.welcomes[i], true, true).0;
    CommitsCarry(joined, room, out.commits, EpochOf(e, room), e.device.user);
  }
}
