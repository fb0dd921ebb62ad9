/** The eviction sweep in every reachable state. */
module SweepRuns {
  import opened Wrappers
  import opened Principal
  import opened SessionStore
  import opened Eviction
  import opened Protocol
  import opened Completion

  lemma ManageKeepsOrdered(cfg: Config, st: Store, op: Op)
    requires Ordered(st.index)
    ensures Ordered(ManageStore(cfg, st, op).index)
  {
    hide Ordered, ZAdd, ZRem;
    match op
    case Start(agent, sid, owner, ts) =>
      StartKeepsOrdered(cfg, st, Named(cfg, agent), sid, owner, ts);
      hide StartCommit;
    case Resume(agent, sid, _, _, ts) =>
      DisplacedKeepsOrdered(st, Named(cfg, agent), ts);
      hide Displaced, ResumeRefusal;
    case Update(agent, named, caller, ts) =>
      var target := UpdateTarget(st, named, Named(cfg, agent));
      if target.Some? { ZAddKeepsOrdered(st.index, target.value, ts); }
    case Abandon(_, _) =>
    case Reap(sid) => ZRemKeepsOrdered(st.index, sid);
    case Sweep => EvictAllKeepsOrdered(cfg, st, Candidates(cfg, st)); hide EvictAll;
    case Lapse(_) =>
  }

  lemma ActKeepsOrdered(cfg: Config, sys: Sys, a: Action)
    requires Ordered(sys.store.index) && CompletersFaithful(cfg, sys)
    ensures Ordered(Act(cfg, sys, a).store.index)
  {
    hide Ordered;
    match a
    case Manage(op) => ManageKeepsOrdered(cfg, sys.store, op); hide ManageStore;
    case Complete(c, step) => CompleterStoreCases(cfg, sys, c, step); hide CompleterAct;
    case Guarded(g, step) =>
      GuardStoreCases(cfg, sys, g, step);
      if g in sys.guards && step.Script? {
        var req := sys.guards[g].req;
        DisplacedKeepsOrdered(sys.store, req.agent, step.ts);
        if req.StartReq? { StartKeepsOrdered(cfg, sys.store, req.agent, req.sid, req.owner, step.ts); }
      }
      hide GuardAct, StartCommit, Displaced;
    case Work(w, step) =>
      if w in sys.workers { WorkStoreCases(sys.store, sys.workers[w], step); }
      hide WorkMove;
    case Requeue(r, step) =>
  }

  lemma {:induction false} IndexStaysOrdered(cfg: Config, run: seq<Action>)
    ensures Ordered(Run(cfg, INIT, run).store.index)
  {
    if run != [] {
      IndexStaysOrdered(cfg, run[..|run| - 1]);
      RunKeepsFaithful(cfg, INIT, run[..|run| - 1]);
      ActKeepsOrdered(cfg, Run(cfg, INIT, run[..|run| - 1]), run[|run| - 1]);
    }
    hide Ordered, Act;
  }

  // In every reachable state, what a sweep spares unconditionally is what was
  // active last: the newest entries stay, and no candidate outscores them.
  lemma NewestSurvive(cfg: Config, run: seq<Action>, e: Scored, c: Scored)
    requires var st := Run(cfg, INIT, run).store;
             && |st.index| > cfg.maxSessions && c in Candidates(cfg, st)
             && e in st.index[|Candidates(cfg, st)|..]
    ensures var st := Run(cfg, INIT, run).store;
            && e in Evict(cfg, st).index && c.score <= e.score && c.sid != e.sid
            && Lookup(Evict(cfg, st).meta, e.sid) == Lookup(st.meta, e.sid)
  {
    IndexStaysOrdered(cfg, run);
    NewestOutscore(cfg, Run(cfg, INIT, run).store, e, c);
    hide Run;
  }

  lemma NewestOutscore(cfg: Config, st: Store, e: Scored, c: Scored)
    requires Ordered(st.index) && |st.index| > cfg.maxSessions
    requires c in Candidates(cfg, st) && e in st.index[|Candidates(cfg, st)|..]
    ensures e in Evict(cfg, st).index && c.score <= e.score && c.sid != e.sid
    ensures Lookup(Evict(cfg, st).meta, e.sid) == Lookup(st.meta, e.sid)
  {
    hide Evict, Staying, Goes, Pinned, Ordered;
    var n := |Candidates(cfg, st)|;
    SplitOrdered(st.index, n, e, c);
    SweepRemovesExactly(cfg, st);
    assert Candidates(cfg, st) == st.index[..n];
  }

  lemma SplitOrdered(index: seq<Scored>, n: nat, e: Scored, c: Scored)
    requires Ordered(index) && n <= |index|
    ensures Distinct(index)
    ensures e in index[n..] ==> forall k :: 0 <= k < n ==> index[k].sid != e.sid
    ensures e in index[n..] && c in index[..n] ==> c.score <= e.score
  {
    if e in index[n..] {
      var j :| 0 <= j < |index| - n && index[n..][j] == e;
      assert index[n + j] == e;
      if c in index[..n] {
        var i :| 0 <= i < n && index[..n][i] == c;
        assert index[i] == c;
      }
    }
  }
}
