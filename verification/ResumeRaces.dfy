/** A resume checks its session once, before the guard, and other clients may act
    until its script: what they can have done by then, and what follows. */
module ResumeRaces {
  import opened Wrappers
  import opened Principal
  import opened SessionStore
  import opened Protocol
  import opened ActivePointers
  import Effects
  import opened Lifecycle
  import opened SessionManagers
  import opened StrandedRun

  function CallerOf(auth: Auth): Option<Caller> {
    if auth.Verified? then Some(auth.caller) else None
  }

  // The tries of a resume that found the session under this label.
  function ResumeTries(
    cfg: Config, st: Store, sid: Sid, agent: Label, auth: Auth, previous: Label, early: Store -> Store,
    rivals: Rivals, ts: int): Tried
  {
    ScriptTries(cfg, early(st), agent, CallerOf(auth), Some(sid), rivals,
                now => ResumeWith(now, sid, agent, previous, ts), 0)
  }

  // By the script, the session is over or gone.
  predicate Ended(now: Store, sid: Sid) {
    sid in now.meta ==> !Live(now.meta[sid].status)
  }

  // By the script, the session is active under a label that is neither the
  // caller's nor the one it was found under.
  predicate Relabelled(now: Store, sid: Sid, agent: Label, previous: Label) {
    sid in now.meta && now.meta[sid].status == Active && now.meta[sid].agent !in {agent, previous}
  }

  ghost predicate BringsBack(issued: set<Sid>, before: Store, after: Store) {
    exists s :: Over(issued, before, s) && !Over(issued, after, s)
  }

  // ---- one script and the writes behind it ----

  lemma ResumePointsExactlyIff(now: Store, sid: Sid, agent: Label, previous: Label, ts: int)
    requires PointerExact(now) && ActiveIsPointed(now) && agent != ""
    ensures PointerExact(ResumeWith(now, sid, agent, previous, ts)) <==> !Relabelled(now, sid, agent, previous)
  {
    hide ZAdd;
    var after := ResumeWith(now, sid, agent, previous, ts);
    if Relabelled(now, sid, agent, previous) {
      var l := now.meta[sid].agent;
      assert Lookup(now.pointer, l) == Some(sid);
      assert l in after.pointer && after.pointer[l] == sid && after.meta[sid].agent == agent;
    }
  }

  lemma ResumeBringsBackIff(issued: set<Sid>, now: Store, sid: Sid, agent: Label, previous: Label, ts: int)
    requires PointerExact(now) && sid in issued
    ensures BringsBack(issued, now, ResumeWith(now, sid, agent, previous, ts)) <==> Ended(now, sid)
  {
    hide ZAdd, DropPointers;
    var after := ResumeWith(now, sid, agent, previous, ts);
    assert sid in after.meta && after.meta[sid].status == Active;
    if Ended(now, sid) {
      assert Over(issued, now, sid) && !Over(issued, after, sid);
    }
  }

  // Whatever the store has become since the first read, and be the session's hash
  // gone: it is made active under the caller's label, which now points at it; the
  // session that label named is paused, the label first read lets go of it, and
  // everything else is as it was.
  lemma RacedResumeMeans(now: Store, sid: Sid, agent: Label, previous: Label, ts: int)
    ensures var after, active := ResumeWith(now, sid, agent, previous, ts), Lookup(now.pointer, agent);
            && sid in after.meta
            && after.meta[sid] == (if sid in now.meta then now.meta[sid] else BLANK)
                                    .(status := Active, agent := agent, expiring := false)
            && (forall s :: s in after.meta && s != sid ==>
              if active == Some(s)
              then after.meta[s] == (if s in now.meta then now.meta[s] else BLANK).(status := Paused)
              else s in now.meta && after.meta[s] == now.meta[s])
            && (forall s :: s in now.meta ==> s in after.meta)
            && (forall e :: e in after.index <==>
              if active.Some? && active.value != sid
              then e == Scored(active.value, ts) || (e in now.index && e.sid != active.value)
              else e in now.index)
            && Lookup(after.pointer, agent) == Some(sid)
            && forall l :: l != agent ==>
              if l == previous && l != "" && Lookup(now.pointer, l) == Some(sid) then l !in after.pointer
              else Lookup(after.pointer, l) == Lookup(now.pointer, l)
  {
    hide ZAdd;
    if agent in now.pointer {
      Effects.ZAddIs(now.index, now.pointer[agent], ts);
    }
  }

  // ---- whole resumes, whatever the rivals do ----

  // A resume that goes through brings back a session exactly if the rivals ended
  // or removed it since it was read, and makes a pointer wrong exactly if they
  // made it active under a third label. If it still has the label it was read
  // under, the resume is the one the protocol takes as a step.
  lemma RacedResumeIff(
    cfg: Config, st: Store, sid: Sid, agent: Label, takeover: bool, auth: Auth, early: Store -> Store,
    rivals: Rivals, ts: int, issued: set<Sid>) returns (n: nat)
    requires ResumeRefusal(cfg, st, sid, agent, takeover, auth).None? && Live(st.meta[sid].status)
    requires sid in issued && agent != ""
    requires ResumeTries(cfg, st, sid, agent, auth, st.meta[sid].agent, early, rivals, ts).why.None?
    ensures n < POINTER_RETRIES
    ensures var now, previous := After(early(st), rivals, n + 1), st.meta[sid].agent;
            var after := ResumeTries(cfg, st, sid, agent, auth, previous, early, rivals, ts).store;
            && (PointerExact(now) ==> (BringsBack(issued, now, after) <==> Ended(now, sid)))
            && (PointerExact(now) && ActiveIsPointed(now) ==>
              (PointerExact(after) <==> !Relabelled(now, sid, agent, previous)))
            && (sid in now.meta && now.meta[sid].agent == previous ==> after == ResumeCommit(now, sid, agent, ts))
  {
    hide ScriptTries, ResumeWith, ResumeCommit, PointerExact, ActiveIsPointed, GuardRefuses, Beaten, BringsBack;
    hide ResumeRefusal;
    ResumableIsThere(cfg, st, sid, agent, takeover, auth);
    var previous := st.meta[sid].agent;
    var commit := (at: Store) => ResumeWith(at, sid, agent, previous, ts);
    n := ScriptTriesEnd(cfg, early(st), agent, CallerOf(auth), Some(sid), rivals, commit, 0);
    var now := After(early(st), rivals, n + 1);
    assert After(early(st), rivals, 0) == early(st);
    if PointerExact(now) {
      ResumeBringsBackIff(issued, now, sid, agent, previous, ts);
      if ActiveIsPointed(now) {
        ResumePointsExactlyIff(now, sid, agent, previous, ts);
      }
    }
    if sid in now.meta {
      ResumeWithIsCommit(now, sid, agent, ts);
    }
  }

  // ---- two races ----

  function Nobody(): Rivals { (k: nat) => (st: Store) => st }

  // With nothing under the label, the first attempt goes through.
  lemma FirstAttempt(
    cfg: Config, st: Store, sid: Sid, agent: Label, auth: Auth, previous: Label, act: Store -> Store, ts: int)
    requires agent !in act(st).pointer
    ensures ResumeTries(cfg, st, sid, agent, auth, previous, act, Nobody(), ts)
         == Tried(ResumeWith(act(st), sid, agent, previous, ts), None)
  {
    hide ResumeWith;
    var commit := (at: Store) => ResumeWith(at, sid, agent, previous, ts);
    TryOnce(cfg, act(st), agent, CallerOf(auth), Some(sid), Nobody(), commit, 0);
  }

  // A completion of the session behind the first read is undone: it ends up
  // active, though queued for distillation.
  lemma CompletionInTheGapIsUndone(
    cfg: Config, st: Store, sid: Sid, agent: Label, takeover: bool, auth: Auth, req: CompleteRequest, ts: int)
    requires ResumeRefusal(cfg, st, sid, agent, takeover, auth).None? && agent !in st.pointer
    requires req.sid == sid && CompleteRefusal(cfg, Lookup(st.meta, sid), req).None?
    ensures var act := (at: Store) => if sid in at.meta then CompleteCommit(at, req) else at;
            var t := ResumeTries(cfg, st, sid, agent, auth, st.meta[sid].agent, act, Nobody(), ts);
            && act(st).meta[sid].status == Completed
            && t.why.None? && sid in t.store.meta
            && t.store.meta[sid].status == Active && t.store.meta[sid].distillation == Queued
  {
    ResumableIsThere(cfg, st, sid, agent, takeover, auth);
    hide ResumeRefusal, CompleteRefusal;
    var act := (at: Store) => if sid in at.meta then CompleteCommit(at, req) else at;
    FirstAttempt(cfg, st, sid, agent, auth, st.meta[sid].agent, act, ts);
    hide ResumeTries, ZAdd, Nobody;
  }

  // A takeover of the session there leaves it under two labels' pointers.
  lemma TakeoverInTheGapIsShared(
    cfg: Config, st: Store, sid: Sid, agent: Label, takeover: bool, auth: Auth, other: Label, ts: int)
    requires ResumeRefusal(cfg, st, sid, agent, takeover, auth).None? && agent !in st.pointer
    requires ResumeRefusal(cfg, st, sid, other, true, auth).None?
    requires other !in {"", agent, st.meta[sid].agent}
    ensures var act := (at: Store) => if sid in at.meta then ResumeCommit(at, sid, other, ts) else at;
            var t := ResumeTries(cfg, st, sid, agent, auth, st.meta[sid].agent, act, Nobody(), ts);
            && t.why.None? && sid in t.store.meta && t.store.meta[sid].agent == agent
            && Lookup(t.store.pointer, agent) == Some(sid) && Lookup(t.store.pointer, other) == Some(sid)
            && !PointerExact(t.store)
  {
    ResumableIsThere(cfg, st, sid, agent, takeover, auth);
    hide ResumeRefusal;
    var act := (at: Store) => if sid in at.meta then ResumeCommit(at, sid, other, ts) else at;
    FirstAttempt(cfg, st, sid, agent, auth, st.meta[sid].agent, act, ts);
    hide ResumeTries, ZAdd, Nobody;
  }

  // A reachable state from which both can happen: two starts under one label, and
  // the second session abandoned.
  lemma RacesAreReachable()
    ensures exists run ::
      var st := Run(CFG, INIT, run).store;
      && "a" !in st.pointer
      && ResumeRefusal(CFG, st, "s", "a", false, Claimed("alice")).None?
      && CompleteRefusal(CFG, Lookup(st.meta, "s"), REQ).None?
      && ResumeRefusal(CFG, st, "s", "b", true, Claimed("alice")).None?
  {
    var sys := Started();
    SecondStarted(sys);
    hide Next;
    sys := Step(sys, Manage(Start("a", "t", ALICE, 1)));
    SecondAbandoned(sys);
    sys := Step(sys, Manage(Abandon("a", "t")));
    var run :| sys == Run(CFG, INIT, run);
  }

  // "s" paused under "a".
  predicate PausedThere(st: Store) {
    "s" in st.meta && st.meta["s"] == Fresh("a", ALICE).(status := Paused)
  }

  lemma SecondStarted(sys: Sys)
    requires sys.store.meta == map["s" := Fresh("a", ALICE)] && sys.store.pointer == map["a" := "s"]
    requires sys.store.index == [Scored("s", 0)]
    ensures var st := Next(CFG, sys, Manage(Start("a", "t", ALICE, 1))).store;
            && PausedThere(st) && Lookup(st.pointer, "a") == Some("t")
            && "t" in st.meta && st.meta["t"] == Fresh("a", ALICE) && (forall l :: l in st.pointer ==> l == "a")
  {
    hide ZAdd;
    var begun := Begun(sys.store, "a", "t", ALICE, 1);
    IndexAfterSecond();
    assert begun.index == [Scored("s", 1), Scored("t", 1)] && Candidates(CFG, begun) == [];
  }

  lemma IndexAfterSecond()
    ensures ZAdd(ZAdd([Scored("s", 0)], "s", 1), "t", 1) == [Scored("s", 1), Scored("t", 1)]
  {
    var first := [Scored("s", 0)];
    assert first[1..] == [] && ZRem(first, "s") == [] && ZAdd(first, "s", 1) == [Scored("s", 1)];
    var second := [Scored("s", 1)];
    assert second[1..] == [] && ZRem(second, "t") == second && ZInsert([], Scored("t", 1)) == [Scored("t", 1)];
  }

  lemma SecondAbandoned(sys: Sys)
    requires PausedThere(sys.store) && Lookup(sys.store.pointer, "a") == Some("t")
    requires "t" in sys.store.meta && sys.store.meta["t"] == Fresh("a", ALICE)
    ensures var st := Next(CFG, sys, Manage(Abandon("a", "t"))).store;
            && "a" !in st.pointer && PausedThere(st)
            && ResumeRefusal(CFG, st, "s", "a", false, Claimed("alice")).None?
            && CompleteRefusal(CFG, Lookup(st.meta, "s"), REQ).None?
            && ResumeRefusal(CFG, st, "s", "b", true, Claimed("alice")).None?
  {
  }
}
