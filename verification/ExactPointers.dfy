/** A label points at a session exactly when that session is active under it -
    until an active session expires, and in every run up to then. */
module ExactPointers {
  import opened Wrappers
  import opened Principal
  import opened SessionStore
  import opened Eviction
  import opened Protocol
  import opened Completion
  import opened ActivePointers
  import opened Lifecycle

  // The TTL of a session that is active runs out.
  predicate ExpiresActive(sys: Sys, a: Action) {
    && a.Manage? && a.op.Lapse? && a.op.sid in sys.store.meta
    && sys.store.meta[a.op.sid].expiring && sys.store.meta[a.op.sid].status == Active
  }

  predicate GuardsNamed(sys: Sys) {
    forall g :: g in sys.guards ==> sys.guards[g].req.agent != ""
  }

  predicate Pointing(cfg: Config, sys: Sys) {
    && cfg.defaultAgent != "" && GuardsNamed(sys) && CompletersFaithful(cfg, sys)
    && ActiveIsPointed(sys.store)
  }

  lemma StartPointsExactly(cfg: Config, st: Store, agent: Label, sid: Sid, owner: Owner, ts: int)
    requires PointerExact(st) && FreshId(st, sid) && agent != ""
    ensures PointerExact(StartCommit(cfg, st, agent, sid, owner, ts))
  {
    var begun := Begun(st, agent, sid, owner, ts);
    BegunPointsExactly(st, agent, sid, owner, ts);
    EvictAllThins(cfg, begun, Candidates(cfg, begun));
    hide Begun;
  }

  lemma BegunPointsExactly(st: Store, agent: Label, sid: Sid, owner: Owner, ts: int)
    requires PointerExact(st) && FreshId(st, sid) && agent != ""
    ensures PointerExact(Begun(st, agent, sid, owner, ts))
  {
    hide ZAdd;
  }

  lemma EvictPointsExactly(cfg: Config, st: Store)
    requires PointerExact(st)
    ensures PointerExact(Evict(cfg, st))
  {
    EvictAllThins(cfg, st, Candidates(cfg, st));
  }

  lemma ResumePointsExactly(cfg: Config, st: Store, sid: Sid, agent: Label, takeover: bool, auth: Auth, ts: int)
    requires PointerExact(st) && agent != ""
    requires ResumeRefusal(cfg, st, sid, agent, takeover, auth).None?
    ensures PointerExact(ResumeCommit(st, sid, agent, ts))
  {
    ResumePointerExact(st, sid, agent, ts);
    hide PointerExact, ResumeCommit, Refuses;
  }

  lemma ManagePointsExactlyIff(cfg: Config, sys: Sys, op: Op)
    requires PointerExact(sys.store) && ActiveIsPointed(sys.store) && cfg.defaultAgent != ""
    ensures PointerExact(ManageStore(cfg, sys.store, op)) <==> !ExpiresActive(sys, Manage(op))
  {
    var st := sys.store;
    match op
    case Start(agent, sid, owner, ts) =>
      if FreshId(st, sid) { StartPointsExactly(cfg, st, Named(cfg, agent), sid, owner, ts); }
      hide StartCommit;
    case Resume(agent, sid, takeover, member, ts) =>
      if ResumeRefusal(cfg, st, sid, Named(cfg, agent), takeover, Claimed(member)).None? {
        ResumePointsExactly(cfg, st, sid, Named(cfg, agent), takeover, Claimed(member), ts);
      }
      hide ResumeCommit;
    case Sweep => EvictPointsExactly(cfg, st); hide Evict;
    case Lapse(sid) => LapsePointsExactlyIff(sys, sid);
    case _ => hide StartCommit, Evict, ResumeCommit;
  }

  lemma LapsePointsExactlyIff(sys: Sys, sid: Sid)
    requires PointerExact(sys.store) && ActiveIsPointed(sys.store)
    ensures PointerExact(Expire(sys.store, sid)) <==> !ExpiresActive(sys, Manage(Lapse(sid)))
  {
    var st := sys.store;
    if ExpiresActive(sys, Manage(Lapse(sid))) {
      var a := st.meta[sid].agent;
      assert Lookup(st.pointer, a) == Some(sid);
      assert a in Expire(st, sid).pointer && sid !in Expire(st, sid).meta;
    }
  }

  lemma CompleterPointsExactly(cfg: Config, sys: Sys, c: nat, step: CompleteStep)
    requires PointerExact(sys.store) && Pointing(cfg, sys)
    ensures PointerExact(CompleterAct(cfg, sys, c, step).store)
  {
    CompleterStoreCases(cfg, sys, c, step);
    hide CompleterAct;
  }

  lemma GuardPointsExactly(cfg: Config, sys: Sys, g: nat, step: GuardStep)
    requires PointerExact(sys.store) && Pointing(cfg, sys)
    ensures PointerExact(GuardAct(cfg, sys, g, step).store)
  {
    GuardStoreCases(cfg, sys, g, step);
    hide GuardAct, StartCommit, ResumeCommit, PointerExact, CompletersFaithful, ActiveIsPointed, ResumeRefusal;
    if g in sys.guards && step.Script? {
      var proc, req := sys.guards[g], sys.guards[g].req;
      if req.StartReq? && FreshId(sys.store, req.sid) {
        StartPointsExactly(cfg, sys.store, req.agent, req.sid, req.owner, step.ts);
      } else if req.ResumeReq? {
        var why := ResumeRefusal(cfg, sys.store, req.sid, req.agent, req.takeover, Verified(proc.caller));
        if why.None? {
          ResumePointsExactly(cfg, sys.store, req.sid, req.agent, req.takeover, Verified(proc.caller), step.ts);
        }
      }
    }
  }

  lemma WorkerPointsExactly(sys: Sys, w: nat, step: WorkStep)
    requires PointerExact(sys.store)
    ensures PointerExact(WorkerAct(sys, w, step).store)
  {
    if w in sys.workers {
      WorkStoreCases(sys.store, sys.workers[w], step);
    }
    hide WorkMove;
  }

  lemma RequeuePointsExactly(sys: Sys, r: nat, step: RequeueStep)
    requires PointerExact(sys.store)
    ensures PointerExact(RequeueAct(sys, r, step).store)
  {
  }

  // Of all steps anyone can take, ids used before and bare hashes included, the
  // expiry of an active session alone makes a pointer wrong.
  lemma PointersStayExactIff(cfg: Config, sys: Sys, a: Action)
    requires PointerExact(sys.store) && Pointing(cfg, sys)
    ensures PointerExact(Next(cfg, sys, a).store) <==> !ExpiresActive(sys, a)
  {
    match a
    case Manage(op) => ManagePointsExactlyIff(cfg, sys, op);
    case Complete(c, step) => CompleterPointsExactly(cfg, sys, c, step);
    case Guarded(g, step) => GuardPointsExactly(cfg, sys, g, step);
    case Work(w, step) => WorkerPointsExactly(sys, w, step);
    case Requeue(r, step) => RequeuePointsExactly(sys, r, step);
    hide PointerExact, ManageStore, CompleterAct, GuardAct, WorkerAct, RequeueAct, Pointing;
  }

  lemma OwnGuardNamed(cfg: Config, sys: Sys, g: nat, step: GuardStep)
    requires GuardsNamed(sys) && cfg.defaultAgent != "" && g in GuardAct(cfg, sys, g, step).guards
    ensures GuardAct(cfg, sys, g, step).guards[g].req.agent != ""
  {
    hide StartCommit, ResumeCommit, ResumeRefusal, Owns;
  }

  lemma NextKeepsGuardsNamed(cfg: Config, sys: Sys, a: Action)
    requires GuardsNamed(sys) && cfg.defaultAgent != ""
    ensures GuardsNamed(Next(cfg, sys, a))
  {
    hide ManageStore, CompleterAct, WorkerAct, RequeueAct, GuardAct;
    forall g | g in Act(cfg, sys, a).guards ensures Act(cfg, sys, a).guards[g].req.agent != "" {
      if a.Guarded? && a.g == g {
        OwnGuardNamed(cfg, sys, g, a.guard);
      } else {
        ActMovesOneGuard(cfg, sys, a, g);
      }
    }
  }

  lemma {:induction false} RunsPoint(cfg: Config, run: seq<Action>)
    requires cfg.defaultAgent != ""
    ensures Pointing(cfg, Run(cfg, INIT, run))
  {
    if run != [] {
      RunsPoint(cfg, run[..|run| - 1]);
      NextKeepsGuardsNamed(cfg, Run(cfg, INIT, run[..|run| - 1]), run[|run| - 1]);
    }
    RunKeepsFaithful(cfg, INIT, run);
    ActiveSessionIsPointed(cfg, run);
    hide Next, CompletersFaithful, ActiveIsPointed;
  }

  // No step of the run expires an active session.
  predicate KeepsActive(cfg: Config, run: seq<Action>) {
    run != [] ==>
      var before := run[..|run| - 1];
      KeepsActive(cfg, before) && !ExpiresActive(Run(cfg, INIT, before), run[|run| - 1])
  }

  // Over whole runs: the pointers are exact all along exactly if no active
  // session expires.
  lemma {:induction false} PointersExactIff(cfg: Config, run: seq<Action>)
    requires cfg.defaultAgent != ""
    ensures (forall k :: 0 <= k <= |run| ==> PointerExact(Run(cfg, INIT, run[..k]).store)) <==> KeepsActive(cfg, run)
  {
    hide PointerExact, ExpiresActive, Next, Pointing;
    assert run[..|run|] == run;
    if run == [] {
      NothingPoints();
    } else {
      var n := |run| - 1;
      PointersExactIff(cfg, run[..n]);
      assert forall k :: 0 <= k <= n ==> run[..n][..k] == run[..k];
      RunsPoint(cfg, run[..n]);
      var at := Run(cfg, INIT, run[..n]);
      assert Run(cfg, INIT, run) == Next(cfg, at, run[n]);
      if PointerExact(at.store) {
        PointersStayExactIff(cfg, at, run[n]);
      }
    }
  }

  lemma NothingPoints()
    ensures PointerExact(INIT.store)
  {
  }

  // After any run in which no active session expired: agent a points at s exactly
  // when s is a's active session.
  lemma PointerNamesTheActiveSession(cfg: Config, run: seq<Action>, a: Label, s: Sid)
    requires KeepsActive(cfg, run) && cfg.defaultAgent != ""
    ensures var st := Run(cfg, INIT, run).store;
            Lookup(st.pointer, a) == Some(s) <==> s in st.meta && st.meta[s].status == Active && st.meta[s].agent == a
  {
    PointersExactIff(cfg, run);
    assert run[..|run|] == run;
    ActiveSessionIsPointed(cfg, run);
    hide Run;
  }

  // Every tame run is such a run.
  lemma {:induction false} TameRunsKeepActive(cfg: Config, run: seq<Action>)
    requires TameRun(cfg, run) && cfg.defaultAgent != ""
    ensures KeepsActive(cfg, run)
  {
    if run != [] {
      var before := run[..|run| - 1];
      TameRunsKeepActive(cfg, before);
      TameRunsAreSound(cfg, before);
      SoundKeepsActive(cfg, Run(cfg, INIT, before), run[|run| - 1]);
    }
    hide Revives, Invariant, ExpiresActive, Next;
  }

  lemma SoundKeepsActive(cfg: Config, sys: Sys, a: Action)
    requires Invariant(cfg, sys)
    ensures !ExpiresActive(sys, a)
  {
  }
}
