/** What each kind of step leaves alone. */
module Frames {
  import opened Mls
  import opened T = Tables
  import opened Inbound
  import opened Flush
  import opened Sync
  import opened Machine
  import opened Steps

  predicate TouchesStore(a: Action)
  {
    a.Queue? || a.FlushResolve? || a.FlushFail? || a.Backfill? || a.LoopFold? || a.PassStep?
  }

  predicate MovesSender(a: Action)
  {
    OnlySends(a) || a.FlushSeal? || a.FlushResolve? || a.FlushFail? || a.Crash?
  }

  lemma SendingFrame(s: Sys, a: Action)
    requires Enabled(s, a) && OnlySends(a)
    ensures var s' := Do(s, a);
            s' == s.(sender := s'.sender, net := s'.net)
  {
    hide PendingSends, HasGroup, IsRoomEncrypted;
  }

  lemma FoldFrame(s: Sys, p: nat)
    requires p in s.loops && s.loops[p].Folding?
    ensures OnlyLoop(s, DoLoopFold(s, p))
  {
  }

  lemma CheckFrame(s: Sys, p: nat)
    requires JoiningAt(s, p, false)
    ensures OnlyLoop(s, DoLoopCheck(s, p)) && DoLoopCheck(s, p).db == s.db
  {
  }

  lemma AskErrorFrame(s: Sys, p: nat)
    requires JoiningAt(s, p, false)
    ensures OnlyLoop(s, DoLoopAskError(s, p)) && DoLoopAskError(s, p).db == s.db
  {
  }

  lemma JoinFrame(s: Sys, p: nat, accept: bool, put: bool)
    requires JoiningAt(s, p, true)
    ensures OnlyLoop(s, DoLoopJoin(s, p, accept, put)) && DoLoopJoin(s, p, accept, put).db == s.db
  {
  }

  lemma SaveFrame(s: Sys, p: nat)
    requires p in s.loops && s.loops[p].Joining?
    ensures var s' := DoLoopSave(s, p);
            OnlyLoop(s, s') && s'.db == s.db.(token := s'.db.token)
  {
  }

  lemma LoopsFrame(s: Sys, loops: map<nat, Loop>)
    ensures OnlyLoop(s, s.(loops := loops)) && s.db == s.db.(token := s.db.token)
  {
  }

  lemma LoopFrame(s: Sys, a: Action)
    requires Enabled(s, a) && OnlyLoops(a)
    ensures var s' := Do(s, a);
            OnlyLoop(s, s') && (!a.LoopFold? ==> s'.db == s.db.(token := s'.db.token))
  {
    hide FromServer, JoiningAt, ToDeviceOf, OnlyLoop, DoLoopFold, DoLoopJoin, DoLoopCheck, DoLoopAskError,
        DoLoopSave, AsksFirst;
    match a
    case LoopFold(p) => FoldFrame(s, p);
    case LoopCheck(p) => CheckFrame(s, p);
    case LoopAskError(p) => AskErrorFrame(s, p);
    case LoopJoin(p, accept, put) => JoinFrame(s, p, accept, put);
    case LoopSave(p) => SaveFrame(s, p);
    case LoopBegin(p) => LoopsFrame(s, s.loops[p := Polling(s.path)]);
    case LoopReply(p, resp) => LoopsFrame(s, s.loops[p := Folding(s.loops[p].path, resp)]);
    case LoopCancel(p) => LoopsFrame(s, s.loops - {p});
  }

  lemma WorkFrame(s: Sys, p: nat, io: Io)
    requires p in s.passes && s.passes[p].todo != []
    ensures var s' := DoWork(s, p, io);
            s' == s.(engine := s'.engine, passes := s'.passes, unsealed := s'.unsealed, missed := s'.missed)
  {
    hide Decrypt, ProcessCommit;
  }

  lemma WriteFrame(s: Sys, p: nat)
    requires p in s.passes && s.passes[p].todo != [] && s.passes[p].stage.Write?
    ensures var s' := DoWrite(s, p);
            s' == s.(db := s'.db, passes := s'.passes) && s'.db.pending == s.db.pending
  {
  }

  lemma PassFrame(s: Sys, p: nat, io: Io)
    requires p in s.passes && s.passes[p].todo != []
    ensures var s' := DoPassStep(s, p, io);
            && s' == s.(db := s'.db, engine := s'.engine, passes := s'.passes, unsealed := s'.unsealed,
                 missed := s'.missed)
            && s'.db.pending == s.db.pending
  {
    hide HasGroup, HasPendingSend, DoWork, DoWrite;
    match s.passes[p].stage
    case Work => WorkFrame(s, p, io);
    case Write(_) => WriteFrame(s, p);
    case _ =>
  }

  predicate Settling(a: Action)
  {
    a.FlushSeal? || a.FlushResolve? || a.FlushFail?
  }

  lemma SettlingFrame(s: Sys, a: Action)
    requires Enabled(s, a) && Settling(a)
    ensures var s' := Do(s, a);
            && s'.user == s.user && s'.server == s.server && s'.origin == s.origin
            && (a.FlushSeal? ==> s'.db == s.db && s'.ledger == s.ledger)
  {
    hide ResolveSend, FailSend, Encrypt;
  }

  lemma OtherFrame(s: Sys, a: Action)
    requires Enabled(s, a) && !OnlySends(a) && !OnlyLoops(a) && !Settling(a) && !a.PassStep?
    ensures var s' := Do(s, a);
            && s'.user == s.user
            && (!a.Crash? ==> s'.sender == s.sender && s'.net == s.net)
            && (!a.ServerTake? && !a.ServerPublish? ==> s'.server == s.server && s'.origin == s.origin)
            && (!a.Queue? ==> s'.ledger == s.ledger && (!a.Backfill? ==> s'.db == s.db))
  {
    hide QueueSend, ApplyEvents, PendingMls, CreateGroup, AddMember, InHand, Restart, EventFor, FromServer, JoiningAt;
  }

  lemma StepFrame(s: Sys, a: Action)
    requires Enabled(s, a)
    ensures var s' := Do(s, a);
            && s'.user == s.user
            && (!TouchesStore(a) ==> s'.db == s.db.(token := s'.db.token) && s'.ledger == s.ledger)
            && (!MovesSender(a) ==> s'.sender == s.sender && s'.net == s.net)
            && (!a.ServerTake? && !a.ServerPublish? ==> s'.server == s.server && s'.origin == s.origin)
  {
    hide Do, Enabled;
    if OnlySends(a) {
      SendingFrame(s, a);
    } else if OnlyLoops(a) {
      LoopFrame(s, a);
    } else if Settling(a) {
      SettlingFrame(s, a);
    } else if a.PassStep? {
      PassStepIs(s, a.p, a.io);
      PassFrame(s, a.p, a.io);
    } else {
      OtherFrame(s, a);
    }
  }

  lemma PassStepIs(s: Sys, p: nat, io: Io)
    requires Enabled(s, PassStep(p, io))
    ensures p in s.passes && s.passes[p].todo != [] && Do(s, PassStep(p, io)) == DoPassStep(s, p, io)
  {
  }

  lemma JoinStepIs(s: Sys, p: nat, accept: bool, put: bool)
    requires Enabled(s, LoopJoin(p, accept, put))
    ensures JoiningAt(s, p, true) && Do(s, LoopJoin(p, accept, put)) == DoLoopJoin(s, p, accept, put)
  {
    hide DoLoopJoin, JoiningAt;
  }
}
