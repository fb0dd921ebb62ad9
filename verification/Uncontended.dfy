/** With nobody else at work, the protocol's steps add up to the operations: a
    process that takes all its steps does what the operation does at once. */
module Uncontended {
  import opened Wrappers
  import opened Principal
  import opened SessionStore
  import opened Protocol
  import opened SessionManagers
  import opened ResumeRaces

  lemma RunSnoc(cfg: Config, sys: Sys, run: seq<Action>, a: Action)
    ensures Run(cfg, sys, run + [a]) == Next(cfg, Run(cfg, sys, run), a)
  {
    assert (run + [a])[..|run|] == run;
  }

  lemma RunFour(cfg: Config, sys: Sys, a: Action, b: Action, c: Action, d: Action)
    ensures Run(cfg, sys, [a, b, c, d]) == Next(cfg, Next(cfg, Next(cfg, Next(cfg, sys, a), b), c), d)
  {
    hide Next;
    assert [] + [a] == [a] && [a] + [b] == [a, b] && [a, b] + [c] == [a, b, c] && [a, b, c] + [d] == [a, b, c, d];
    RunSnoc(cfg, sys, [], a);
    RunSnoc(cfg, sys, [a], b);
    RunSnoc(cfg, sys, [a, b], c);
    RunSnoc(cfg, sys, [a, b, c], d);
  }

  // ---- a completion ----

  // Nothing else runs: what completer c has come to, and the rest as it was.
  predicate Reached(sys: Sys, at: Sys, c: nat, phase: CompletePhase, req: CompleteRequest) {
    && at.store == sys.store && at.queue == sys.queue && at.nextId == sys.nextId
    && c in at.completers && at.completers[c] == Completer(req, 0, false, phase)
  }

  lemma Steps(cfg: Config, sys: Sys, at: Sys, c: nat, phase: CompletePhase, req: CompleteRequest, step: CompleteStep)
    requires Reached(sys, at, c, phase, req) && !step.Begin? && !step.Exec? && !step.Rewritten?
    ensures var e := CompleteMove(cfg, sys.store, Completer(req, 0, false, phase), step);
            Reached(sys, Next(cfg, at, Complete(c, step)), c, e.proc.phase, req)
  {
  }

  lemma Begins(cfg: Config, sys: Sys, c: nat, req: CompleteRequest)
    requires c !in sys.completers && req.sid != ""
    ensures Reached(sys, Next(cfg, sys, Complete(c, Begin(req))), c, Ready, req.(agent := Named(cfg, req.agent)))
  {
    hide Named;
  }

  // A completer nobody disturbs does at its six commands what a completion does
  // at its first attempt.
  lemma CompletionAlone(cfg: Config, sys: Sys, c: nat, req: CompleteRequest, now: int)
    requires c !in sys.completers && req.sid != ""
    ensures var end := Next(cfg, Run(cfg, Next(cfg, sys, Complete(c, Begin(req))),
              [Complete(c, Watch), Complete(c, ReadMeta), Complete(c, WatchPointers), Complete(c, ReadPointers)]),
              Complete(c, Exec(now)));
            var (after, result) :=
              CompleteTries(cfg, sys.store, req.(agent := Named(cfg, req.agent)), Nobody(), {}, 0);
            && end.store == after && c in end.completers && end.completers[c].phase == Ended(result)
            && (result.Done? ==>
              end.queue == sys.queue[sys.nextId := Entry(req.sid, 0, now)] && end.nextId == sys.nextId + 1)
            && (result.Refused? ==> end.queue == sys.queue && end.nextId == sys.nextId)
  {
    hide Next, Run, CompleteTries, StaleLabels, Refuses, DisturbedKeys, CompleteCommit, CompleteReplyOf;
    var asked := req.(agent := Named(cfg, req.agent));
    var ready := Run(cfg, Next(cfg, sys, Complete(c, Begin(req))),
      [Complete(c, Watch), Complete(c, ReadMeta), Complete(c, WatchPointers), Complete(c, ReadPointers)]);
    ReadsAlone(cfg, sys, c, req);
    hide Named;
    UndisturbedTry(cfg, sys.store, asked);
    ExecAlone(cfg, sys, ready, c, asked, now);
  }

  // The phase a completer's reads bring it to, if nothing changes meanwhile.
  function ReadOff(cfg: Config, st: Store, req: CompleteRequest): CompletePhase {
    var why := CompleteRefusal(cfg, Lookup(st.meta, req.sid), req);
    if why.Some? then Ended(Refused(why.value))
    else
      var m := Lookup(st.meta, req.sid).value;
      PointersRead(m, StaleLabels(st.pointer, {m.agent, req.agent}, req.sid))
  }

  lemma ReadsAlone(cfg: Config, sys: Sys, c: nat, req: CompleteRequest)
    requires c !in sys.completers && req.sid != ""
    ensures var asked := req.(agent := Named(cfg, req.agent));
            Reached(sys, Run(cfg, Next(cfg, sys, Complete(c, Begin(req))),
              [Complete(c, Watch), Complete(c, ReadMeta), Complete(c, WatchPointers), Complete(c, ReadPointers)]),
              c, ReadOff(cfg, sys.store, asked), asked)
  {
    hide Next, Run, Named, Reached, StaleLabels, Refuses;
    var asked := req.(agent := Named(cfg, req.agent));
    var begun := Next(cfg, sys, Complete(c, Begin(req)));
    Begins(cfg, sys, c, req);
    RunFour(cfg, begun, Complete(c, Watch), Complete(c, ReadMeta), Complete(c, WatchPointers),
            Complete(c, ReadPointers));
    Steps(cfg, sys, begun, c, Ready, asked, Watch);
    var watching := Next(cfg, begun, Complete(c, Watch));
    Steps(cfg, sys, watching, c, Watching, asked, ReadMeta);
    var read := Next(cfg, watching, Complete(c, ReadMeta));
    var first := CompleteMove(cfg, sys.store, Completer(asked, 0, false, Watching), ReadMeta).proc.phase;
    Steps(cfg, sys, read, c, first, asked, WatchPointers);
    var watched := Next(cfg, read, Complete(c, WatchPointers));
    var second := CompleteMove(cfg, sys.store, Completer(asked, 0, false, first), WatchPointers).proc.phase;
    Steps(cfg, sys, watched, c, second, asked, ReadPointers);
  }

  lemma UndisturbedTry(cfg: Config, st: Store, req: CompleteRequest)
    ensures var why := CompleteRefusal(cfg, Lookup(st.meta, req.sid), req);
            && (why.None? ==> req.sid in st.meta)
            && CompleteTries(cfg, st, req, Nobody(), {}, 0)
               == if why.Some? then (st, Refused(why.value))
                  else (CompleteCommit(st, req), Done(CompleteReplyOf(st.meta[req.sid], req)))
  {
    hide CompleteTries, CompleteCommit, CompleteReplyOf, Refuses;
    CompleteOnce(cfg, st, req, Nobody(), {}, 0);
  }

  lemma ExecAlone(cfg: Config, sys: Sys, at: Sys, c: nat, req: CompleteRequest, now: int)
    requires Reached(sys, at, c, ReadOff(cfg, sys.store, req), req)
    ensures var why := CompleteRefusal(cfg, Lookup(sys.store.meta, req.sid), req);
            var end := Next(cfg, at, Complete(c, Exec(now)));
            && c in end.completers
            && if why.Some? then
                 && end.store == sys.store && end.completers[c].phase == Ended(Refused(why.value))
                 && end.queue == sys.queue && end.nextId == sys.nextId
               else
                 && req.sid in sys.store.meta && end.store == CompleteCommit(sys.store, req)
                 && end.completers[c].phase == Ended(Done(CompleteReplyOf(sys.store.meta[req.sid], req)))
                 && end.queue == sys.queue[sys.nextId := Entry(req.sid, 0, now)] && end.nextId == sys.nextId + 1
  {
    hide CompleteReplyOf, Refuses;
    if CompleteRefusal(cfg, Lookup(sys.store.meta, req.sid), req).None? {
      var m := sys.store.meta[req.sid];
      assert sys.store.pointer - StaleLabels(sys.store.pointer, {m.agent, req.agent}, req.sid)
          == DropPointers(sys.store.pointer, {m.agent, req.agent}, req.sid);
    }
    hide DropPointers, StaleLabels;
  }

  // ---- starts and resumes ----

  // A guarded start or resume whose label nobody moves: refused by its guard, or
  // through at its first script.
  lemma GuardAlone(cfg: Config, sys: Sys, g: nat, caller: Caller, req: GuardRequest, ts: int)
    requires g !in sys.guards && (req.StartReq? ==> FreshId(sys.store, req.sid))
    ensures var end := Run(cfg, sys, [Guarded(g, Enter(caller, req)), Guarded(g, GuardStep.Get),
                                      Guarded(g, Check), Guarded(g, Script(ts))]);
            && g in end.guards && end.guards[g].phase.Left?
            && GuardedAtOnce(cfg, sys.store, caller, req.(agent := Named(cfg, req.agent)), ts,
                             Tried(end.store, end.guards[g].phase.why))
  {
    hide Run, Next, Named, GuardMove, GuardedAtOnce;
    RunFour(cfg, sys, Guarded(g, Enter(caller, req)), Guarded(g, GuardStep.Get), Guarded(g, Check),
            Guarded(g, Script(ts)));
    var entered := Next(cfg, sys, Guarded(g, Enter(caller, req)));
    GuardEnters(cfg, sys, g, caller, req);
    GuardMoves(cfg, entered, g, GuardStep.Get);
    var got := Next(cfg, entered, Guarded(g, GuardStep.Get));
    GuardReads(cfg, sys.store, Guard(caller, req.(agent := Named(cfg, req.agent)), 0, Entering));
    GuardMoves(cfg, got, g, Check);
    var checked := Next(cfg, got, Guarded(g, Check));
    GuardMoves(cfg, checked, g, Script(ts));
    GuardScript(cfg, sys.store, Guard(caller, req.(agent := Named(cfg, req.agent)), 0, Entering), ts);
  }

  // How the operation would end on this store; both kinds of refusal are one here,
  // since the guard refuses before the session's own checks are made.
  predicate GuardedAtOnce(cfg: Config, st: Store, caller: Caller, req: GuardRequest, ts: int, t: Tried) {
    match req
    case StartReq(agent, sid, owner) =>
      t == ScriptTries(cfg, st, agent, Some(caller), None, Nobody(),
                       now => StartCommit(cfg, now, agent, sid, owner, ts), 0)
    case ResumeReq(agent, sid, takeover) =>
      if ResumeRefusal(cfg, st, sid, agent, takeover, Verified(caller)).Some? then t.store == st && t.why.Some?
      else
        && sid in st.meta
        && t == ScriptTries(cfg, st, agent, Some(caller), Some(sid), Nobody(),
                            now => ResumeWith(now, sid, agent, st.meta[sid].agent, ts), 0)
  }

  // A guard's reads change nothing and pin the pointer.
  lemma GuardReads(cfg: Config, st: Store, proc: Guard)
    requires proc.phase.Entering? && proc.attempt == 0
    ensures var got := GuardMove(cfg, st, proc, GuardStep.Get);
            var checked := GuardMove(cfg, st, got.proc, Check);
            got.store == st && checked.store == st
  {
  }

  lemma GuardScript(cfg: Config, st: Store, proc: Guard, ts: int)
    requires proc.phase.Entering? && proc.attempt == 0
    requires proc.req.StartReq? ==> FreshId(st, proc.req.sid)
    ensures var checked := GuardMove(cfg, st, GuardMove(cfg, st, proc, GuardStep.Get).proc, Check);
            var e := GuardMove(cfg, st, checked.proc, Script(ts));
            e.proc.phase.Left? && GuardedAtOnce(cfg, st, proc.caller, proc.req, ts, Tried(e.store, e.proc.phase.why))
  {
    hide ScriptTries, StartCommit, ResumeCommit, ResumeWith, ResumeRefusal, Owns;
    var caller := proc.caller;
    match proc.req
    case StartReq(agent, sid, owner) =>
      TryOnce(cfg, st, agent, Some(caller), None, Nobody(), now => StartCommit(cfg, now, agent, sid, owner, ts), 0);
    case ResumeReq(agent, sid, takeover) =>
      ResumableIsThere(cfg, st, sid, agent, takeover, Verified(caller));
      if ResumeRefusal(cfg, st, sid, agent, takeover, Verified(caller)).None? {
        var previous := st.meta[sid].agent;
        TryOnce(cfg, st, agent, Some(caller), Some(sid), Nobody(),
                now => ResumeWith(now, sid, agent, previous, ts), 0);
        ResumeWithIsCommit(st, sid, agent, ts);
      }
  }

  lemma GuardEnters(cfg: Config, sys: Sys, g: nat, caller: Caller, req: GuardRequest)
    requires g !in sys.guards
    ensures var at := Next(cfg, sys, Guarded(g, Enter(caller, req)));
            && at.store == sys.store && g in at.guards
            && at.guards[g] == Guard(caller, req.(agent := Named(cfg, req.agent)), 0, Entering)
  {
  }

  lemma GuardMoves(cfg: Config, sys: Sys, g: nat, step: GuardStep)
    requires g in sys.guards && !step.Enter?
    ensures var e, at := GuardMove(cfg, sys.store, sys.guards[g], step), Next(cfg, sys, Guarded(g, step));
            at.store == e.store && g in at.guards && at.guards[g] == e.proc
  {
    hide GuardMove;
  }

  // The unguarded ones, which the protocol takes as one step.
  lemma StartAlone(cfg: Config, sys: Sys, name: Label, sid: Sid, owner: Owner, ts: int)
    requires FreshId(sys.store, sid)
    ensures var agent := if name == "" then cfg.defaultAgent else name;
            Tried(Next(cfg, sys, Manage(Start(name, sid, owner, ts))).store, None)
            == ScriptTries(cfg, sys.store, agent, None, None, Nobody(),
                           st => StartCommit(cfg, st, agent, sid, owner, ts), 0)
  {
    hide ScriptTries, StartCommit;
    var agent := Named(cfg, name);
    TryOnce(cfg, sys.store, agent, None, None, Nobody(), st => StartCommit(cfg, st, agent, sid, owner, ts), 0);
  }

  lemma ResumeAlone(cfg: Config, sys: Sys, name: Label, sid: Sid, takeover: bool, member: string, ts: int)
    ensures var agent := if name == "" then cfg.defaultAgent else name;
            var after := Next(cfg, sys, Manage(Resume(name, sid, takeover, member, ts))).store;
            if ResumeRefusal(cfg, sys.store, sid, agent, takeover, Claimed(member)).Some? then after == sys.store
            else
              && sid in sys.store.meta
              && Tried(after, None)
                 == ScriptTries(cfg, sys.store, agent, None, Some(sid), Nobody(),
                                st => ResumeWith(st, sid, agent, sys.store.meta[sid].agent, ts), 0)
  {
    hide ScriptTries, ResumeCommit, ResumeWith, ResumeRefusal;
    var agent := Named(cfg, name);
    ResumableIsThere(cfg, sys.store, sid, agent, takeover, Claimed(member));
    if ResumeRefusal(cfg, sys.store, sid, agent, takeover, Claimed(member)).None? {
      var previous := sys.store.meta[sid].agent;
      TryOnce(cfg, sys.store, agent, None, Some(sid), Nobody(), st => ResumeWith(st, sid, agent, previous, ts), 0);
      ResumeWithIsCommit(sys.store, sid, agent, ts);
    }
  }

  // Writes, abandonments, reaps, sweeps and expiries are single steps, too.
  lemma OthersAlone(
    cfg: Config, sys: Sys, name: Label, sid: Sid, named: Option<Sid>, caller: Option<Caller>, cutoff: int, ts: int)
    ensures var agent, st := if name == "" then cfg.defaultAgent else name, sys.store;
            && Next(cfg, sys, Manage(Update(name, named, caller, ts))).store
               == (if UpdateRefusal(cfg, st, named, agent, caller).Some? then st
                   else UpdateCommit(st, UpdateTarget(st, named, agent).value, ts))
            && Next(cfg, sys, Manage(Abandon(name, sid))).store
               == (if AbandonRefusal(st, sid, agent).Some? then st else AbandonCommit(st, sid, agent))
            && Next(cfg, sys, Manage(Reap(sid))).store == ReapAll(cfg, st, [Scored(sid, ts)])
            && Next(cfg, sys, Manage(Sweep)).store == Evict(cfg, st)
            && Next(cfg, sys, Manage(Lapse(sid))).store.meta
               == (if sid in st.meta && st.meta[sid].expiring then st.meta - {sid} else st.meta)
  {
    hide UpdateCommit, AbandonCommit, ReapOne, Evict, UpdateRefusal, AbandonRefusal;
    assert [Scored(sid, ts)][..0] == [];
  }

  // ---- a dead letter ----

  // Its requeue's four steps take the oldest record; a malformed one goes back to
  // the newest end, one whose session is gone is dropped, and any other leaves a
  // fresh entry, due now, and its session queued.
  lemma RequeueAlone(cfg: Config, sys: Sys, r: nat, now: int)
    requires r !in sys.requeuers && sys.dlq != []
    ensures var end := Run(cfg, sys, [Requeue(r, Pop), Requeue(r, Look), Requeue(r, RequeueStep.Enqueue(now)),
                                      Requeue(r, SetStatus)]);
            var rest, letter := sys.dlq[..|sys.dlq| - 1], sys.dlq[|sys.dlq| - 1];
            && r !in end.requeuers
            && if letter.sid == "" then
                 end.dlq == [letter] + rest && end.store == sys.store && end.queue == sys.queue
               else if letter.sid !in sys.store.meta then
                 end.dlq == rest && end.store == sys.store && end.queue == sys.queue
               else
                 && end.dlq == rest && end.queue == sys.queue[sys.nextId := Entry(letter.sid, 0, now)]
                 && end.store.pointer == sys.store.pointer && end.store.index == sys.store.index
                 && end.store.meta
                    == sys.store.meta[letter.sid := sys.store.meta[letter.sid].(distillation := Queued)]
  {
    hide Next, Run, RequeueAct;
    RunFour(cfg, sys, Requeue(r, Pop), Requeue(r, Look), Requeue(r, RequeueStep.Enqueue(now)), Requeue(r, SetStatus));
    var popped := Next(cfg, sys, Requeue(r, Pop));
    Requeues(cfg, sys, r, Pop);
    Requeues(cfg, popped, r, Look);
    var looked := Next(cfg, popped, Requeue(r, Look));
    Requeues(cfg, looked, r, RequeueStep.Enqueue(now));
    var queued := Next(cfg, looked, Requeue(r, RequeueStep.Enqueue(now)));
    Requeues(cfg, queued, r, SetStatus);
    PopAndLook(sys, popped, looked, r);
    MarkQueued(sys, looked, queued, Next(cfg, queued, Requeue(r, SetStatus)), r, now);
  }

  // Two systems agree on all a requeue reads and writes.
  predicate Same(a: Sys, b: Sys) {
    a.store == b.store && a.queue == b.queue && a.dlq == b.dlq && a.nextId == b.nextId && a.requeuers == b.requeuers
  }

  lemma PopAndLook(sys: Sys, popped: Sys, looked: Sys, r: nat)
    requires r !in sys.requeuers && sys.dlq != []
    requires Same(popped, RequeueAct(sys, r, Pop)) && Same(looked, RequeueAct(popped, r, Look))
    ensures var rest, letter := sys.dlq[..|sys.dlq| - 1], sys.dlq[|sys.dlq| - 1];
            && looked.store == sys.store && looked.queue == sys.queue && looked.nextId == sys.nextId
            && looked.dlq == (if letter.sid == "" then [letter] + rest else rest)
            && if letter.sid == "" || letter.sid !in sys.store.meta then r !in looked.requeuers
               else r in looked.requeuers && looked.requeuers[r] == Found(letter)
  {
    assert [] + popped.dlq == popped.dlq;
  }

  lemma MarkQueued(sys: Sys, looked: Sys, queued: Sys, end: Sys, r: nat, now: int)
    requires looked.store == sys.store && looked.queue == sys.queue && looked.nextId == sys.nextId
    requires r in looked.requeuers ==>
               looked.requeuers[r].Found? && looked.requeuers[r].letter.sid in sys.store.meta
    requires Same(queued, RequeueAct(looked, r, RequeueStep.Enqueue(now)))
    requires Same(end, RequeueAct(queued, r, SetStatus))
    ensures if r !in looked.requeuers then Same(end, looked)
            else
              var sid := looked.requeuers[r].letter.sid;
              && r !in end.requeuers && end.dlq == looked.dlq
              && end.queue == sys.queue[sys.nextId := Entry(sid, 0, now)]
              && end.store.pointer == sys.store.pointer && end.store.index == sys.store.index
              && end.store.meta == sys.store.meta[sid := sys.store.meta[sid].(distillation := Queued)]
  {
    assert [] + looked.dlq == looked.dlq;
  }

  lemma Requeues(cfg: Config, sys: Sys, r: nat, step: RequeueStep)
    ensures var at, act := Next(cfg, sys, Requeue(r, step)), RequeueAct(sys, r, step);
            Same(at, act)
  {
    hide RequeueAct;
  }
}
