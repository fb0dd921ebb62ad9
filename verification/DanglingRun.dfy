/** Why PointerNamesTheActiveSession asks that no active session expire: resuming a
    hash with nothing in it but a late status ends in a pointer to nothing. */
module DanglingRun {
  import opened Wrappers
  import opened Principal
  import opened SessionStore
  import opened Protocol
  import opened QueueSafety
  import opened Lifecycle
  import opened StrandedRun

  const JOB := Job(0, Entry("s", 0, 1))

  // A worker holds the one job while the session is dropped under it.
  lemma Holding(sys: Sys)
    requires At(sys, Queued, map[0 := JOB.entry], 1, [], Some(Loaded(JOB, [])), None)
    requires sys.store.meta["s"].agent == "a"
    ensures var abandoned := Next(CFG, sys, Manage(Abandon("a", "s")));
            var gone := Next(CFG, abandoned, Manage(Lapse("s")));
            "s" !in gone.store.meta && gone.workers == sys.workers
  {
  }

  lemma LateStatus(sys: Sys)
    requires "s" !in sys.store.meta && sys.workers == map[0 := Loaded(JOB, [])]
    ensures var marked := Next(CFG, sys, Work(0, Outcome(Learned, 2)));
            && marked.store.meta == sys.store.meta["s" := BLANK.(distillation := Succeeded)]
            && marked.workers == map[0 := Marked(JOB, [])]
  {
  }

  lemma ResumedThenLapsed(sys: Sys)
    requires "s" in sys.store.meta && sys.store.meta["s"] == BLANK.(distillation := Succeeded)
    requires sys.workers == map[0 := Marked(JOB, [])]
    ensures var resumed := Next(CFG, sys, Manage(Resume("a", "s", false, "", 3)));
            var expiring := Next(CFG, resumed, Work(0, ApplyTtl));
            var lapsed := Next(CFG, expiring, Manage(Lapse("s")));
            "s" !in lapsed.store.meta && Lookup(lapsed.store.pointer, "a") == Some("s")
  {
    var resumed := Next(CFG, sys, Manage(Resume("a", "s", false, "", 3)));
    assert "s" in resumed.store.meta && Lookup(resumed.store.pointer, "a") == Some("s");
    assert resumed.workers == sys.workers;
  }

  // Its hash recreated by the worker's late status write.
  lemma Recreated() returns (sys: Sys)
    ensures Reachable(sys) && "s" in sys.issued && sys.workers == map[0 := Marked(JOB, [])]
    ensures "s" in sys.store.meta && sys.store.meta["s"] == BLANK.(distillation := Succeeded)
  {
    sys := CompletedOnce();
    Fetches(sys, 0, JOB.entry, Queued, 1, [], None, None);
    assert Next(CFG, sys, Work(0, Fetch([0]))).store == sys.store;
    sys := Step(sys, Work(0, Fetch([0])));
    Works(sys, Load, Queued, JOB, 1, [], Head([JOB]), None, Queued, [], Loaded(JOB, []));
    assert Next(CFG, sys, Work(0, Load)).store == sys.store;
    sys := Step(sys, Work(0, Load));
    Holding(sys);
    assert sys.workers == map[0 := Loaded(JOB, [])];
    hide *;
    sys := Step(sys, Manage(Abandon("a", "s")));
    sys := Step(sys, Manage(Lapse("s")));
    LateStatus(sys);
    sys := Step(sys, Work(0, Outcome(Learned, 2)));
  }

  lemma PointerCanDangle()
    ensures exists run, a :: a in Run(CFG, INIT, run).store.pointer
                          && Run(CFG, INIT, run).store.pointer[a] !in Run(CFG, INIT, run).store.meta
  {
    var sys := Recreated();
    ResumedThenLapsed(sys);
    hide *;
    sys := Step(sys, Manage(Resume("a", "s", false, "", 3)));
    sys := Step(sys, Work(0, ApplyTtl));
    sys := Step(sys, Manage(Lapse("s")));
    Dangles(sys);
  }

  // And the resume has brought back a session that was over.
  lemma OverCanComeBack()
    ensures exists run, a, s ::
      var before, after := Run(CFG, INIT, run), Next(CFG, Run(CFG, INIT, run), a);
      Over(before.issued, before.store, s) && !Over(after.issued, after.store, s)
  {
    var sys := Recreated();
    var run :| sys == Run(CFG, INIT, run);
    var back := Manage(Resume("a", "s", false, "", 3));
    ResumedIsLive(sys);
    assert Over(sys.issued, sys.store, "s") && !Over(Next(CFG, sys, back).issued, Next(CFG, sys, back).store, "s");
  }

  lemma ResumedIsLive(sys: Sys)
    requires "s" in sys.store.meta && sys.store.meta["s"] == BLANK.(distillation := Succeeded)
    ensures var after := Next(CFG, sys, Manage(Resume("a", "s", false, "", 3)));
            "s" in after.store.meta && after.store.meta["s"].status == Active
  {
  }

  lemma Dangles(sys: Sys)
    requires Reachable(sys) && "s" !in sys.store.meta && Lookup(sys.store.pointer, "a") == Some("s")
    ensures exists run, a :: a in Run(CFG, INIT, run).store.pointer
                          && Run(CFG, INIT, run).store.pointer[a] !in Run(CFG, INIT, run).store.meta
  {
    var run :| sys == Run(CFG, INIT, run);
    assert "a" in Run(CFG, INIT, run).store.pointer;
  }
}
