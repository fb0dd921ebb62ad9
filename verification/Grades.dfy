/** What a session keeps for as long as it exists: its owner and its first grade. */
module Grades {
  import opened Wrappers
  import opened Principal
  import opened SessionStore
  import opened Eviction
  import opened Protocol
  import opened Completion
  import opened Effects

  predicate SameRecord(m: Meta, n: Meta) {
    && m.owner == n.owner
    && (StandingGrade(m).Some? ==> n.grade == m.grade && n.gradeSource == m.gradeSource && n.evidence == m.evidence)
  }

  predicate Remembers(before: Store, after: Store) {
    forall s :: s in before.meta && s in after.meta ==> SameRecord(before.meta[s], after.meta[s])
  }

  // Sessions no verified member owns carry no grade.
  predicate OwnerlessUngraded(st: Store) {
    forall s :: s in st.meta && st.meta[s].owner.member == "" ==>
      st.meta[s].grade == "" && st.meta[s].gradeSource == "" && st.meta[s].evidence == []
  }

  predicate KeepsRecords(before: Store, after: Store) {
    Remembers(before, after) && (OwnerlessUngraded(before) ==> OwnerlessUngraded(after))
  }

  lemma StartKeepsRecords(cfg: Config, st: Store, agent: Label, sid: Sid, owner: Owner, ts: int)
    requires FreshId(st, sid)
    ensures KeepsRecords(st, StartCommit(cfg, st, agent, sid, owner, ts))
  {
    var started := Begun(st, agent, sid, owner, ts);
    EvictAllThins(cfg, started, Candidates(cfg, started));
  }

  lemma ResumeKeepsRecords(st: Store, sid: Sid, agent: Label, ts: int)
    requires sid in st.meta
    ensures KeepsRecords(st, ResumeCommit(st, sid, agent, ts))
  {
  }

  lemma ManageKeepsRecords(cfg: Config, st: Store, op: Op)
    ensures KeepsRecords(st, ManageStore(cfg, st, op))
  {
    match op
    case Start(agent, sid, owner, ts) =>
      if FreshId(st, sid) { StartKeepsRecords(cfg, st, Named(cfg, agent), sid, owner, ts); }
    case Resume(agent, sid, takeover, member, ts) =>
      if sid in st.meta { ResumeKeepsRecords(st, sid, Named(cfg, agent), ts); }
      hide ResumeCommit;
    case Sweep => EvictAllThins(cfg, st, Candidates(cfg, st));
    case _ => hide StartCommit, Evict, ResumeCommit;
  }

  lemma GuardKeepsRecords(cfg: Config, sys: Sys, g: nat, step: GuardStep)
    ensures KeepsRecords(sys.store, GuardAct(cfg, sys, g, step).store)
  {
    GuardStoreCases(cfg, sys, g, step);
    hide StartCommit, GuardAct, ResumeCommit;
    if g in sys.guards && step.Script? {
      var req := sys.guards[g].req;
      if req.StartReq? && FreshId(sys.store, req.sid) {
        StartKeepsRecords(cfg, sys.store, req.agent, req.sid, req.owner, step.ts);
      } else if req.ResumeReq? && req.sid in sys.store.meta {
        ResumeKeepsRecords(sys.store, req.sid, req.agent, step.ts);
      }
    }
  }

  lemma CompleterKeepsRecords(cfg: Config, sys: Sys, c: nat, step: CompleteStep)
    requires CompletersFaithful(cfg, sys)
    ensures KeepsRecords(sys.store, CompleterAct(cfg, sys, c, step).store)
  {
    CompleterStoreCases(cfg, sys, c, step);
    hide CompleterAct;
  }

  lemma WorkerKeepsRecords(sys: Sys, w: nat, step: WorkStep)
    ensures KeepsRecords(sys.store, WorkerAct(sys, w, step).store)
  {
    hide WorkMove;
    if w in sys.workers {
      WorkStoreCases(sys.store, sys.workers[w], step);
    }
  }

  lemma RequeueKeepsRecords(sys: Sys, r: nat, step: RequeueStep)
    ensures KeepsRecords(sys.store, RequeueAct(sys, r, step).store)
  {
  }

  lemma NextKeepsRecords(cfg: Config, sys: Sys, a: Action)
    requires CompletersFaithful(cfg, sys)
    ensures KeepsRecords(sys.store, Next(cfg, sys, a).store)
  {
    match a
    case Manage(op) => ManageKeepsRecords(cfg, sys.store, op);
    case Complete(c, step) => CompleterKeepsRecords(cfg, sys, c, step);
    case Guarded(g, step) => GuardKeepsRecords(cfg, sys, g, step);
    case Work(w, step) => WorkerKeepsRecords(sys, w, step);
    case Requeue(r, step) => RequeueKeepsRecords(sys, r, step);
    hide *;
  }

  // s exists in every state the run passes through.
  predicate StaysPut(cfg: Config, sys: Sys, run: seq<Action>, s: Sid) {
    forall k | 0 <= k <= |run| :: s in Run(cfg, sys, run[..k]).store.meta
  }

  // Nothing that can happen to a session while it exists changes its owner, or
  // its grade and evidence once they stand.
  lemma {:induction false} RecordStands(cfg: Config, sys: Sys, run: seq<Action>, s: Sid)
    requires CompletersFaithful(cfg, sys) && StaysPut(cfg, sys, run, s)
    ensures s in sys.store.meta && s in Run(cfg, sys, run).store.meta
    ensures SameRecord(sys.store.meta[s], Run(cfg, sys, run).store.meta[s])
  {
    assert run[..0] == [] && run[..|run|] == run;
    assert s in Run(cfg, sys, run[..0]).store.meta && s in Run(cfg, sys, run[..|run|]).store.meta;
    if run != [] {
      var most := run[..|run| - 1];
      forall k | 0 <= k <= |most| ensures s in Run(cfg, sys, most[..k]).store.meta {
        assert most[..k] == run[..k];
      }
      RecordStands(cfg, sys, most, s);
      RunKeepsFaithful(cfg, sys, most);
      NextKeepsRecords(cfg, Run(cfg, sys, most), run[|run| - 1]);
    }
  }

  // The EXEC that ends completer c reports grade g for session s.
  predicate Reports(cfg: Config, sys: Sys, c: nat, now: int, s: Sid, g: string) {
    && c in sys.completers && sys.completers[c].req.sid == s
    && sys.completers[c].phase.PointersRead? && !sys.completers[c].dirty
    && CompleteReplyOf(sys.completers[c].phase.m, sys.completers[c].req).grade == Some(g)
  }

  lemma ReportedIsStored(cfg: Config, sys: Sys, c: nat, now: int, s: Sid, g: string)
    requires CompletersFaithful(cfg, sys) && Reports(cfg, sys, c, now, s, g)
    ensures s in sys.store.meta && s in Next(cfg, sys, Complete(c, Exec(now))).store.meta
    ensures StandingGrade(sys.store.meta[s]) in {None, Some(g)}
    ensures StandingGrade(Next(cfg, sys, Complete(c, Exec(now))).store.meta[s]) == Some(g)
  {
  }

  // However many completers race for a session, all that report a grade report
  // the first one stored.
  lemma FirstGradeWins(cfg: Config, past: seq<Action>, c: nat, now: int, g: string,
                       between: seq<Action>, c': nat, now': int, g': string, s: Sid)
    requires var sys := Run(cfg, INIT, past);
             var graded := Next(cfg, sys, Complete(c, Exec(now)));
             && Reports(cfg, sys, c, now, s, g)
             && StaysPut(cfg, graded, between, s)
             && Reports(cfg, Run(cfg, graded, between), c', now', s, g')
    ensures g == g'
  {
    var sys := Run(cfg, INIT, past);
    RunKeepsFaithful(cfg, INIT, past);
    NextKeepsFaithful(cfg, sys, Complete(c, Exec(now)));
    ReportedIsStored(cfg, sys, c, now, s, g);
    var graded := Next(cfg, sys, Complete(c, Exec(now)));
    RecordStands(cfg, graded, between, s);
    RunKeepsFaithful(cfg, graded, between);
    ReportedIsStored(cfg, Run(cfg, graded, between), c', now', s, g');
    hide Next, Reports;
  }

  // The first result reported for a session of an owner is what stays on record,
  // whatever runs afterwards: the completer whose EXEC goes through while no
  // grade stands stores its own grade and evidence and is told so.
  lemma FirstReportStays(cfg: Config, past: seq<Action>, c: nat, now: int, between: seq<Action>)
    requires c in Run(cfg, INIT, past).completers
    requires var proc := Run(cfg, INIT, past).completers[c];
             && proc.phase.PointersRead? && !proc.dirty && IsResult(proc.req.submitted)
             && (proc.req.sid in Run(cfg, INIT, past).store.meta ==>
               var m := Run(cfg, INIT, past).store.meta[proc.req.sid];
               m.owner.member != "" && !HasStanding(m))
             && StaysPut(cfg, Next(cfg, Run(cfg, INIT, past), Complete(c, Exec(now))), between, proc.req.sid)
    ensures var sys := Run(cfg, INIT, past);
            var req, graded := sys.completers[c].req, Next(cfg, sys, Complete(c, Exec(now)));
            && c in graded.completers
            && graded.completers[c].phase == Ended(Done(CompleteReply(Some(req.submitted), false)))
            && req.sid in sys.store.meta && req.sid in Run(cfg, graded, between).store.meta
            && var n := Run(cfg, graded, between).store.meta[req.sid];
               && n.grade == req.submitted && n.gradeSource == "self_reported" && n.evidence == req.evidence
               && n.owner == sys.store.meta[req.sid].owner
  {
    var sys := Run(cfg, INIT, past);
    var req := sys.completers[c].req;
    var graded := Next(cfg, sys, Complete(c, Exec(now)));
    RunKeepsFaithful(cfg, INIT, past);
    ExecIsAtomic(cfg, sys, c, now);
    CompletionGrades(sys.store, req);
    ExecGrades(cfg, sys, c, now);
    NextKeepsFaithful(cfg, sys, Complete(c, Exec(now)));
    RecordStands(cfg, graded, between, req.sid);
    hide Next, Run, CompleterAct, CompleteCommit, CompleteReplyOf, CompletersFaithful, StaysPut;
  }

  // An EXEC that goes through leaves the store of the atomic completion.
  lemma ExecGrades(cfg: Config, sys: Sys, c: nat, now: int)
    requires CompletersFaithful(cfg, sys)
    requires c in sys.completers && sys.completers[c].phase.PointersRead? && !sys.completers[c].dirty
    ensures var req, after := sys.completers[c].req, Next(cfg, sys, Complete(c, Exec(now)));
            && req.sid in sys.store.meta && CompleteRefusal(cfg, Some(sys.store.meta[req.sid]), req).None?
            && after.store == CompleteCommit(sys.store, req)
            && c in after.completers
            && after.completers[c].phase == Ended(Done(CompleteReplyOf(sys.store.meta[req.sid], req)))
  {
    ExecIsAtomic(cfg, sys, c, now);
    hide CompleteCommit, CompleteReplyOf, DisturbedKeys;
  }

  lemma {:induction false} OwnerlessNeverGraded(cfg: Config, run: seq<Action>)
    ensures OwnerlessUngraded(Run(cfg, INIT, run).store)
  {
    if run != [] {
      OwnerlessNeverGraded(cfg, run[..|run| - 1]);
      RunKeepsFaithful(cfg, INIT, run[..|run| - 1]);
      NextKeepsRecords(cfg, Run(cfg, INIT, run[..|run| - 1]), run[|run| - 1]);
    }
  }
}
