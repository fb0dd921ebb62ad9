/** _guard_pointer and the compare-and-set of the start and resume scripts, over
    every run: other members' starts and resumes, evictions, expiry, reused ids. */
module PointerGuard {
  import opened Wrappers
  import opened Principal
  import opened SessionStore
  import opened Eviction
  import opened Protocol

  // The pointer value a guard let through was absent, resume's own target,
  // without metadata, or the caller's own session.
  predicate Admitted(cfg: Config, g: Guard) {
    g.attempt < POINTER_RETRIES &&
    (g.phase.Checked? && g.phase.p.Some? && !(g.req.ResumeReq? && g.phase.p.value == g.req.sid) ==>
       g.phase.seen.None? || Owns(cfg.deployment, g.phase.seen.value.owner, g.caller))
  }

  lemma MoveKeepsAdmitted(cfg: Config, st: Store, g: Guard, step: GuardStep)
    requires Admitted(cfg, g)
    ensures Admitted(cfg, GuardMove(cfg, st, g, step).proc)
  {
    hide Owns, StartCommit, ResumeCommit, ResumeRefusal;
  }

  lemma NextKeepsAdmitted(cfg: Config, sys: Sys, a: Action)
    requires forall g :: g in sys.guards ==> Admitted(cfg, sys.guards[g])
    ensures forall g :: g in Next(cfg, sys, a).guards ==> Admitted(cfg, Next(cfg, sys, a).guards[g])
  {
    if a.Guarded? && a.g in sys.guards {
      MoveKeepsAdmitted(cfg, sys.store, sys.guards[a.g], a.guard);
    }
    hide ManageStore, CompleteMove, GuardMove, WorkMove, RequeueMove, Owns;
  }

  lemma {:induction false} GuardsAdmit(cfg: Config, run: seq<Action>)
    ensures forall g :: g in Run(cfg, INIT, run).guards ==> Admitted(cfg, Run(cfg, INIT, run).guards[g])
  {
    if run != [] {
      GuardsAdmit(cfg, run[..|run| - 1]);
      NextKeepsAdmitted(cfg, Run(cfg, INIT, run[..|run| - 1]), run[|run| - 1]);
    }
  }

  predicate NewlyPaused(before: Store, after: Store, s: Sid) {
    s in after.meta && after.meta[s].status == Paused && !(s in before.meta && before.meta[s].status == Paused)
  }

  // Only the session the guard read is ever paused.
  lemma ScriptPausesChecked(cfg: Config, sys: Sys, g: nat, step: GuardStep, s: Sid)
    requires NewlyPaused(sys.store, GuardAct(cfg, sys, g, step).store, s)
    ensures g in sys.guards && sys.guards[g].phase.Checked? && sys.guards[g].phase.p == Some(s)
    ensures sys.guards[g].req.ResumeReq? ==> sys.guards[g].req.sid != s
  {
    GuardStoreCases(cfg, sys, g, step);
    hide GuardAct, ResumeRefusal, Owns, ZAdd, DropPointers;
    var req := sys.guards[g].req;
    if req.StartReq? && step.Script? {
      var begun := Begun(sys.store, req.agent, req.sid, req.owner, step.ts);
      EvictAllThins(cfg, begun, Candidates(cfg, begun));
    }
  }

  lemma GuardedPauseWasAdmitted(cfg: Config, run: seq<Action>, g: nat, step: GuardStep, s: Sid)
    requires NewlyPaused(Run(cfg, INIT, run).store, Next(cfg, Run(cfg, INIT, run), Guarded(g, step)).store, s)
    ensures var sys := Run(cfg, INIT, run);
            && g in sys.guards && sys.guards[g].phase.Checked? && sys.guards[g].phase.p == Some(s)
            && (sys.guards[g].phase.seen.Some? ==>
                  Owns(cfg.deployment, sys.guards[g].phase.seen.value.owner, sys.guards[g].caller))
  {
    GuardsAdmit(cfg, run);
    ScriptPausesChecked(cfg, Run(cfg, INIT, run), g, step, s);
    hide Run, GuardAct;
  }

  // A guard that gives up - refused, or out of attempts - has written nothing,
  // and it never makes more than five attempts.
  lemma GivingUpWritesNothing(cfg: Config, run: seq<Action>, g: nat, step: GuardStep)
    requires g in Run(cfg, INIT, run).guards
    ensures var sys := Run(cfg, INIT, run);
            var after := Next(cfg, sys, Guarded(g, step));
            && g in after.guards && after.guards[g].attempt < POINTER_RETRIES
            && (after.guards[g].phase != Left(None) ==> after.store == sys.store)
  {
    GuardsAdmit(cfg, run);
    GuardMoveEffects(cfg, Run(cfg, INIT, run).store, Run(cfg, INIT, run).guards[g], step);
    hide Run, GuardMove;
  }

  lemma GuardMoveEffects(cfg: Config, st: Store, proc: Guard, step: GuardStep)
    requires Admitted(cfg, proc)
    ensures var e := GuardMove(cfg, st, proc, step);
            e.proc.attempt < POINTER_RETRIES && (e.proc.phase != Left(None) ==> e.store == st)
  {
    hide Owns, StartCommit, ResumeCommit, ResumeRefusal;
  }

  // A guard whose label moved between its read and its script starts over, and
  // after its fifth attempt gives up; nothing else makes it give up so.
  lemma BeatenGuardRetries(cfg: Config, run: seq<Action>, g: nat, ts: int)
    requires g in Run(cfg, INIT, run).guards && Run(cfg, INIT, run).guards[g].phase.Checked?
    ensures var sys, after := Run(cfg, INIT, run), Next(cfg, Run(cfg, INIT, run), Guarded(g, Script(ts)));
            var proc := sys.guards[g];
            && g in after.guards
            && (Lookup(sys.store.pointer, proc.req.agent) != proc.phase.p ==>
              && after.store == sys.store
              && after.guards[g] == if proc.attempt < 4 then proc.(attempt := proc.attempt + 1, phase := Entering)
                                    else proc.(phase := Left(Some(Contended))))
            && (after.guards[g].phase == Left(Some(Contended)) ==>
              Lookup(sys.store.pointer, proc.req.agent) != proc.phase.p && proc.attempt == 4)
  {
    GuardsAdmit(cfg, run);
    var sys := Run(cfg, INIT, run);
    ScriptRetries(cfg, sys.store, sys.guards[g], ts);
    hide Run, GuardMove;
  }

  lemma ScriptRetries(cfg: Config, st: Store, proc: Guard, ts: int)
    requires proc.phase.Checked? && proc.attempt < 5
    ensures var e := GuardMove(cfg, st, proc, Script(ts));
            && (Lookup(st.pointer, proc.req.agent) != proc.phase.p ==>
              e.store == st && e.proc == if proc.attempt < 4 then proc.(attempt := proc.attempt + 1, phase := Entering)
                                         else proc.(phase := Left(Some(Contended))))
            && (e.proc.phase == Left(Some(Contended)) ==>
              Lookup(st.pointer, proc.req.agent) != proc.phase.p && proc.attempt == 4)
  {
    hide StartCommit, ResumeCommit, Owns;
  }
}
