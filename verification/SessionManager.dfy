/** The session operations as bridge/app/session.py and bridge/app/reaper.py
    perform them, command by command. Operations that retry take `rivals`: what
    other clients do to the store on attempt k, between its reads and its script
    or EXEC. */
module SessionManagers {
  import opened Wrappers
  import opened Principal
  import opened SessionStore
  import opened Eviction
  import opened Protocol

  // ---- operations that retry ----

  type Rivals = nat -> Store -> Store

  // The store after the rivals' first k interventions.
  function After(st: Store, rivals: Rivals, k: nat): Store {
    if k == 0 then st else rivals(k - 1)(After(st, rivals, k - 1))
  }

  datatype Tried = Tried(store: Store, why: Option<Refusal>)

  predicate GuardRefuses(cfg: Config, st: Store, agent: Label, caller: Option<Caller>, allow: Option<Sid>) {
    && caller.Some? && agent in st.pointer && Some(st.pointer[agent]) != allow && st.pointer[agent] in st.meta
    && !Owns(cfg.deployment, st.meta[st.pointer[agent]].owner, caller.value)
  }

  // The compare-and-set of a guarded script fails.
  predicate Moved(before: Store, now: Store, agent: Label, caller: Option<Caller>) {
    caller.Some? && Lookup(now.pointer, agent) != Lookup(before.pointer, agent)
  }

  // From attempt k on: guard, rivals, script; `commit` is what a script that is
  // not beaten and the writes behind it do.
  function ScriptTries(
    cfg: Config, st: Store, agent: Label, caller: Option<Caller>, allow: Option<Sid>, rivals: Rivals,
    commit: Store -> Store, k: nat): Tried
    decreases POINTER_RETRIES - k
  {
    if k >= POINTER_RETRIES then Tried(st, Some(Contended))
    else if GuardRefuses(cfg, st, agent, caller, allow) then Tried(st, Some(WrongOwner))
    else
      var now := rivals(k)(st);
      if Moved(st, now, agent, caller) then ScriptTries(cfg, now, agent, caller, allow, rivals, commit, k + 1)
      else Tried(commit(now), None)
  }

  // Attempt k's script finds that the label is not where its guard saw it; only
  // a verified caller has a guard.
  predicate Beaten(st: Store, agent: Label, caller: Option<Caller>, rivals: Rivals, k: nat) {
    caller.Some? && Lookup(After(st, rivals, k).pointer, agent) != Lookup(After(st, rivals, k + 1).pointer, agent)
  }

  // The label's active session, at attempt k, exists, is not the one allowed and
  // is not the verified caller's.
  predicate Foreign(
    cfg: Config, st: Store, agent: Label, caller: Option<Caller>, allow: Option<Sid>, rivals: Rivals, k: nat)
  {
    var at := After(st, rivals, k);
    var active := Lookup(at.pointer, agent);
    && caller.Some? && active.Some? && active != allow && active.value in at.meta
    && !Owns(cfg.deployment, at.meta[active.value].owner, caller.value)
  }

  // The tries end at attempt n: by a refusal that writes nothing, by one whole
  // commit to what the rivals left, or, with no attempt left, by writing nothing.
  predicate EndsAt(
    cfg: Config, st: Store, agent: Label, caller: Option<Caller>, allow: Option<Sid>, rivals: Rivals,
    commit: Store -> Store, t: Tried, n: nat)
  {
    if n >= 5 then t == Tried(After(st, rivals, 5), Some(Contended))
    else if Foreign(cfg, st, agent, caller, allow, rivals, n)
    then t == Tried(After(st, rivals, n), Some(WrongOwner))
    else !Beaten(st, agent, caller, rivals, n) && t == Tried(commit(After(st, rivals, n + 1)), None)
  }

  // However the rivals interfere, a guarded script ends at the first attempt its
  // guard refuses or they do not beat.
  lemma {:induction false} ScriptTriesEnd(
    cfg: Config, st: Store, agent: Label, caller: Option<Caller>, allow: Option<Sid>, rivals: Rivals,
    commit: Store -> Store, k: nat) returns (n: nat)
    requires k <= POINTER_RETRIES
    ensures var t := ScriptTries(cfg, After(st, rivals, k), agent, caller, allow, rivals, commit, k);
            k <= n <= POINTER_RETRIES && EndsAt(cfg, st, agent, caller, allow, rivals, commit, t, n)
    ensures forall i: nat :: k <= i < n ==>
      Beaten(st, agent, caller, rivals, i) && !Foreign(cfg, st, agent, caller, allow, rivals, i)
    decreases POINTER_RETRIES - k
  {
    hide Owns, ScriptTries, After;
    n := k;
    if k == POINTER_RETRIES {
      OutOfTries(cfg, After(st, rivals, k), agent, caller, allow, rivals, commit);
    } else {
      TryOnce(cfg, After(st, rivals, k), agent, caller, allow, rivals, commit, k);
      assert After(st, rivals, k + 1) == rivals(k)(After(st, rivals, k)) by { AfterOne(st, rivals, k); }
      if !Foreign(cfg, st, agent, caller, allow, rivals, k) && Beaten(st, agent, caller, rivals, k) {
        n := ScriptTriesEnd(cfg, st, agent, caller, allow, rivals, commit, k + 1);
      }
    }
  }

  lemma AfterOne(st: Store, rivals: Rivals, k: nat)
    ensures After(st, rivals, k + 1) == rivals(k)(After(st, rivals, k))
  {
  }

  // The resume script, with the label the session was read under.
  function ScriptedResume(st: Store, sid: Sid, agent: Label, previous: Label, ts: int): Store {
    var displaced := if Lookup(st.pointer, agent) == Some(sid) then st else Displaced(st, agent, ts);
    var released := if previous != agent then DropPointers(st.pointer, {previous}, sid) else st.pointer;
    displaced.(pointer := released[agent := sid])
  }

  function ResumeWith(st: Store, sid: Sid, agent: Label, previous: Label, ts: int): Store {
    var scripted := ScriptedResume(st, sid, agent, previous, ts);
    scripted.(
      meta := scripted.meta[sid := Hash(scripted.meta, sid).(status := Active, agent := agent, expiring := false)])
  }

  lemma ResumeWithIsCommit(st: Store, sid: Sid, agent: Label, ts: int)
    requires sid in st.meta
    ensures ResumeWith(st, sid, agent, st.meta[sid].agent, ts) == ResumeCommit(st, sid, agent, ts)
  {
  }

  // From attempt k on: read, rivals, EXEC. `rewritten` holds the attempts in which
  // a watched key was written with the value it had.
  function CompleteTries(cfg: Config, st: Store, req: CompleteRequest, rivals: Rivals, rewritten: set<nat>, k: nat)
    : (Store, CompleteResult)
    decreases COMPLETE_RETRIES - k
  {
    if k >= COMPLETE_RETRIES then (st, Refused(Contended))
    else
      var m := Lookup(st.meta, req.sid);
      var why := CompleteRefusal(cfg, m, req);
      if why.Some? then (st, Refused(why.value))
      else
        var now := rivals(k)(st);
        if k in rewritten || DisturbedKeys(st, now, req, m.value) then
          CompleteTries(cfg, now, req, rivals, rewritten, k + 1)
        else (CompleteCommit(now, req), Done(CompleteReplyOf(now.meta[req.sid], req)))
  }

  // In attempt k, between the reads and EXEC, a watched key was rewritten or
  // changed: the session's hash, or the pointer of its own or the caller's label.
  predicate Spoiled(st: Store, req: CompleteRequest, rivals: Rivals, rewritten: set<nat>, k: nat) {
    var read, now := After(st, rivals, k), After(st, rivals, k + 1);
    || k in rewritten
    || Lookup(read.meta, req.sid) != Lookup(now.meta, req.sid)
    || (req.sid in read.meta
        && exists l :: l in {read.meta[req.sid].agent, req.agent} && l != ""
                       && Lookup(read.pointer, l) != Lookup(now.pointer, l))
  }

  // A completion ends at attempt n: refused for what it reads there, without a
  // trace; as the atomic completion of the store it commits to; or, with no
  // attempt left, by writing nothing.
  predicate CompletesAt(
    cfg: Config, st: Store, req: CompleteRequest, rivals: Rivals, rewritten: set<nat>, after: Store,
    result: CompleteResult, n: nat)
  {
    if n >= 8 then after == After(st, rivals, 8) && result == Refused(Contended)
    else
      var why := CompleteRefusal(cfg, Lookup(After(st, rivals, n).meta, req.sid), req);
      if why.Some? then after == After(st, rivals, n) && result == Refused(why.value)
      else
        var now := After(st, rivals, n + 1);
        && !Spoiled(st, req, rivals, rewritten, n) && req.sid in now.meta
        && CompleteRefusal(cfg, Lookup(now.meta, req.sid), req).None?
        && after == CompleteCommit(now, req) && result == Done(CompleteReplyOf(now.meta[req.sid], req))
  }

  // Whatever the rivals do, a completion ends at the first attempt that is refused
  // or that they do not spoil.
  lemma {:induction false} CompleteTriesEnd(
    cfg: Config, st: Store, req: CompleteRequest, rivals: Rivals, rewritten: set<nat>, k: nat) returns (n: nat)
    requires k <= COMPLETE_RETRIES
    ensures var (after, result) := CompleteTries(cfg, After(st, rivals, k), req, rivals, rewritten, k);
            k <= n <= COMPLETE_RETRIES && CompletesAt(cfg, st, req, rivals, rewritten, after, result, n)
    ensures forall i: nat :: k <= i < n ==>
      && Spoiled(st, req, rivals, rewritten, i)
      && CompleteRefusal(cfg, Lookup(After(st, rivals, i).meta, req.sid), req).None?
    decreases COMPLETE_RETRIES - k
  {
    hide CompleteCommit, CompleteReplyOf, Refuses, CompleteTries, After, DisturbedKeys, Spoiled;
    n := k;
    if k == COMPLETE_RETRIES {
      OutOfCompletions(cfg, After(st, rivals, k), req, rivals, rewritten);
    } else {
      AfterOne(st, rivals, k);
      CompleteOnce(cfg, After(st, rivals, k), req, rivals, rewritten, k);
      SpoiledIs(st, req, rivals, rewritten, k);
      if CompleteRefusal(cfg, Lookup(After(st, rivals, k).meta, req.sid), req).None?
         && Spoiled(st, req, rivals, rewritten, k) {
        n := CompleteTriesEnd(cfg, st, req, rivals, rewritten, k + 1);
      }
    }
  }

  lemma SpoiledIs(st: Store, req: CompleteRequest, rivals: Rivals, rewritten: set<nat>, k: nat)
    ensures var read, now := After(st, rivals, k), After(st, rivals, k + 1);
            req.sid in read.meta ==>
              && (Spoiled(st, req, rivals, rewritten, k) <==>
                k in rewritten || DisturbedKeys(read, now, req, read.meta[req.sid]))
              && (!Spoiled(st, req, rivals, rewritten, k) ==> Lookup(now.meta, req.sid) == Lookup(read.meta, req.sid))
  {
    hide After;
  }

  class SessionManager {
    const cfg: Config
    var meta: map<Sid, Meta>
    var pointer: map<Label, Sid>
    var index: seq<Scored>
    var queue: map<nat, Entry>
    var nextId: nat

    constructor (cfg: Config)
      ensures this.cfg == cfg && View() == INIT.store && queue == map[] && nextId == 0
    {
      this.cfg := cfg;
      meta, pointer, index, queue, nextId := map[], map[], [], map[], 0;
    }

    function View(): Store
      reads this
    {
      Store(meta, pointer, index)
    }

    method EnforceMaxSessions()
      modifies this`meta, this`index
      ensures View() == Evict(cfg, old(View()))
    {
      if |index| <= cfg.maxSessions {
        return;
      }
      ghost var start := View();
      var oldest := index[..|index| - cfg.maxSessions];
      for i := 0 to |oldest|
        invariant View() == EvictAll(cfg, start, oldest[..i])
      {
        hide EvictOne;
        assert oldest[..i + 1][..i] == oldest[..i];
        EvictEntry(oldest[i].sid);
      }
      assert oldest[..|oldest|] == oldest;
    }

    // One candidate of the sweep.
    method EvictEntry(sid: Sid)
      modifies this`meta, this`index
      ensures View() == EvictOne(cfg, old(View()), sid)
    {
      if sid !in meta {
        index := ZRem(index, sid);
      } else if meta[sid].status == Active || meta[sid].status == Paused {
        if |index| > 2 * cfg.maxSessions && meta[sid].status == Paused {
          meta := meta - {sid};
          index := ZRem(index, sid);
        }
      } else if !(meta[sid].status == Completed && meta[sid].distillation == Queued) {
        meta := meta - {sid};
        index := ZRem(index, sid);
      }
    }

    // _guard_pointer: the pointer value to compare against, or a refusal.
    method GuardPointer(agent: Label, caller: Caller, allow: Option<Sid>) returns (refused: bool, current: Option<Sid>)
      ensures refused <==> agent in pointer && Some(pointer[agent]) != allow && pointer[agent] in meta
                           && !Owns(cfg.deployment, meta[pointer[agent]].owner, caller)
      ensures !refused ==> current == Lookup(pointer, agent)
    {
      current := Lookup(pointer, agent);
      refused := false;
      if current.Some? && current != allow && current.value in meta {
        refused := !Owns(cfg.deployment, meta[current.value].owner, caller);
      }
    }

    // START_SESSION_LUA; expected is the guarded pointer value, if there is one.
    method StartScript(agent: Label, sid: Sid, expected: Option<Option<Sid>>, ts: int) returns (moved: bool)
      modifies this`meta, this`pointer, this`index
      ensures moved <==> expected.Some? && expected.value != old(Lookup(pointer, agent))
      ensures moved ==> View() == old(View())
      ensures !moved ==> View() == old(Displaced(View(), agent, ts)).(pointer := old(pointer)[agent := sid])
    {
      var active := Lookup(pointer, agent);
      if expected.Some? && active != expected.value {
        return true;
      }
      if active.Some? {
        meta := meta[active.value := Hash(meta, active.value).(status := Paused)];
        index := ZAdd(index, active.value, ts);
      }
      pointer := pointer[agent := sid];
      return false;
    }

    // What the rivals have made of the store.
    method Yield(now: Store)
      modifies this`meta, this`pointer, this`index
      ensures View() == now
    {
      meta, pointer, index := now.meta, now.pointer, now.index;
    }

    method StartSession(name: Label, sid: Sid, owner: Owner, caller: Option<Caller>, rivals: Rivals, ts: int)
      returns (why: Option<Refusal>)
      requires FreshId(View(), sid)
      modifies this`meta, this`pointer, this`index
      ensures var agent := Named(cfg, name);
              Tried(View(), why) == ScriptTries(cfg, old(View()), agent, caller, None, rivals,
                                                st => StartCommit(cfg, st, agent, sid, owner, ts), 0)
    {
      hide ScriptTries, StartCommit;
      var agent := Named(cfg, name);
      ghost var commit := st => StartCommit(cfg, st, agent, sid, owner, ts);
      var attempt := 0;
      while attempt < POINTER_RETRIES
        invariant attempt <= POINTER_RETRIES
        invariant ScriptTries(cfg, View(), agent, caller, None, rivals, commit, attempt)
               == ScriptTries(cfg, old(View()), agent, caller, None, rivals, commit, 0)
      {
        var before := View();
        TryOnce(cfg, before, agent, caller, None, rivals, commit, attempt);
        var expected := None;
        if caller.Some? {
          var refused, current := GuardPointer(agent, caller.value, None);
          if refused {
            return Some(WrongOwner);
          }
          expected := Some(current);
        }
        Yield(rivals(attempt)(View()));
        var moved := StartScript(agent, sid, expected, ts);
        if !moved {
          FinishStart(agent, sid, owner, rivals(attempt)(before), ts);
          return None;
        }
        attempt := attempt + 1;
      }
      OutOfTries(cfg, View(), agent, caller, None, rivals, commit);
      return Some(Contended);
    }

    // The writes behind a start script that went through.
    method FinishStart(agent: Label, sid: Sid, owner: Owner, scripted: Store, ts: int)
      requires View() == Displaced(scripted, agent, ts).(pointer := scripted.pointer[agent := sid])
      modifies this`meta, this`pointer, this`index
      ensures View() == StartCommit(cfg, scripted, agent, sid, owner, ts)
    {
      meta := meta[sid := Fresh(agent, owner)];
      pointer := pointer[agent := sid];
      index := ZAdd(index, sid, ts);
      assert View() == Begun(scripted, agent, sid, owner, ts);
      EnforceMaxSessions();
    }

    // RESUME_SESSION_LUA; expected is the guarded pointer value, if there is one.
    method ResumeScript(sid: Sid, agent: Label, previous: Label, expected: Option<Option<Sid>>, ts: int)
      returns (moved: bool)
      modifies this`meta, this`pointer, this`index
      ensures moved <==> expected.Some? && expected.value != old(Lookup(pointer, agent))
      ensures moved ==> View() == old(View())
      ensures !moved ==> View() == ScriptedResume(old(View()), sid, agent, previous, ts)
    {
      var active := Lookup(pointer, agent);
      if expected.Some? && active != expected.value {
        return true;
      }
      if active.Some? && active.value != sid {
        meta := meta[active.value := Hash(meta, active.value).(status := Paused)];
        index := ZAdd(index, active.value, ts);
      }
      if previous != "" && previous != agent && Lookup(pointer, previous) == Some(sid) {
        pointer := pointer - {previous};
      }
      assert pointer == if previous != agent then DropPointers(old(pointer), {previous}, sid) else old(pointer);
      pointer := pointer[agent := sid];
      return false;
    }

    // resume_session; `early` is what other clients do between its first read and
    // its first guard.
    method ResumeSession(
      sid: Sid, name: Label, takeover: bool, auth: Auth, early: Store -> Store, rivals: Rivals, ts: int)
      returns (why: Option<Refusal>)
      modifies this`meta, this`pointer, this`index
      ensures var agent, st := Named(cfg, name), old(View());
              var refusal := ResumeRefusal(cfg, st, sid, agent, takeover, auth);
              if refusal.Some? then why == refusal && View() == st
              else
                var caller := if auth.Verified? then Some(auth.caller) else None;
                Tried(View(), why) == ScriptTries(cfg, early(st), agent, caller, Some(sid), rivals,
                                                  now => ResumeWith(now, sid, agent, st.meta[sid].agent, ts), 0)
    {
      hide ScriptTries, ResumeWith, ResumeRefusal;
      var agent := Named(cfg, name);
      why := ResumeRefusal(cfg, View(), sid, agent, takeover, auth);
      if why.Some? {
        return;
      }
      ResumableIsThere(cfg, View(), sid, agent, takeover, auth);
      var previous := meta[sid].agent;
      var caller := if auth.Verified? then Some(auth.caller) else None;
      ghost var commit := now => ResumeWith(now, sid, agent, previous, ts);
      Yield(early(View()));
      var attempt := 0;
      while attempt < POINTER_RETRIES
        invariant attempt <= POINTER_RETRIES
        invariant ScriptTries(cfg, View(), agent, caller, Some(sid), rivals, commit, attempt)
               == ScriptTries(cfg, early(old(View())), agent, caller, Some(sid), rivals, commit, 0)
      {
        ghost var before := View();
        TryOnce(cfg, before, agent, caller, Some(sid), rivals, commit, attempt);
        var expected := None;
        if caller.Some? {
          var refused, current := GuardPointer(agent, caller.value, Some(sid));
          if refused {
            return Some(WrongOwner);
          }
          expected := Some(current);
        }
        Yield(rivals(attempt)(View()));
        var moved := TakeSession(sid, agent, previous, expected, ts);
        if !moved {
          return None;
        }
        attempt := attempt + 1;
      }
      OutOfTries(cfg, View(), agent, caller, Some(sid), rivals, commit);
      return Some(Contended);
    }

    // The script and, if it went through, the writes that follow it.
    method TakeSession(sid: Sid, agent: Label, previous: Label, expected: Option<Option<Sid>>, ts: int)
      returns (moved: bool)
      modifies this`meta, this`pointer, this`index
      ensures moved <==> expected.Some? && expected.value != old(Lookup(pointer, agent))
      ensures View() == if moved then old(View()) else ResumeWith(old(View()), sid, agent, previous, ts)
    {
      moved := ResumeScript(sid, agent, previous, expected, ts);
      if !moved {
        meta := meta[sid := Hash(meta, sid).(status := Active, agent := agent)];
        pointer := pointer[agent := sid];
        meta := meta[sid := meta[sid].(expiring := false)];
      }
    }

    // complete_session.
    method CompleteSession(req: CompleteRequest, rivals: Rivals, rewritten: set<nat>, now: int)
      returns (result: CompleteResult)
      requires req.sid != ""
      modifies this`meta, this`pointer, this`index, this`queue, this`nextId
      ensures (View(), result) == CompleteTries(cfg, old(View()), req, rivals, rewritten, 0)
      ensures result.Done? ==> queue == old(queue)[old(nextId) := Entry(req.sid, 0, now)] && nextId == old(nextId) + 1
      ensures result.Refused? ==> queue == old(queue) && nextId == old(nextId)
    {
      hide CompleteTries, CompleteCommit, CompleteReplyOf;
      var attempt: nat := 0;
      while attempt < COMPLETE_RETRIES
        invariant attempt <= COMPLETE_RETRIES && queue == old(queue) && nextId == old(nextId)
        invariant CompleteTries(cfg, View(), req, rivals, rewritten, attempt)
               == CompleteTries(cfg, old(View()), req, rivals, rewritten, 0)
      {
        var before := View();
        CompleteOnce(cfg, before, req, rivals, rewritten, attempt);
        var m := Lookup(meta, req.sid);
        var why := CompleteRefusal(cfg, m, req);
        if why.Some? {
          return Refused(why.value);
        }
        var writesGrade := WritesGrade(m.value, req);
        var stale := StaleLabels(pointer, {m.value.agent, req.agent}, req.sid);
        Yield(rivals(attempt)(View()));
        if attempt !in rewritten && !DisturbedKeys(before, View(), req, m.value) {
          Exec(before, m.value, req, writesGrade, stale, now);
          return Done(CompleteReplyOf(m.value, req));
        }
        attempt := attempt + 1;
      }
      OutOfCompletions(cfg, View(), req, rivals, rewritten);
      return Refused(Contended);
    }

    // The MULTI block, with what was read before it.
    method Exec(read: Store, m: Meta, req: CompleteRequest, writesGrade: bool, stale: set<Label>, now: int)
      requires Lookup(read.meta, req.sid) == Some(m) && writesGrade == WritesGrade(m, req)
      requires stale == StaleLabels(read.pointer, {m.agent, req.agent}, req.sid)
      requires !DisturbedKeys(read, View(), req, m)
      modifies this`meta, this`pointer, this`queue, this`nextId
      ensures req.sid in old(meta) && old(meta)[req.sid] == m && View() == CompleteCommit(old(View()), req)
      ensures queue == old(queue)[old(nextId) := Entry(req.sid, 0, now)] && nextId == old(nextId) + 1
    {
      StaleStays(read, View(), {m.agent, req.agent}, req.sid);
      meta := meta[req.sid := CompletedMeta(Hash(meta, req.sid), writesGrade, req)];
      pointer := pointer - stale;
      assert pointer == DropPointers(old(pointer), {m.agent, req.agent}, req.sid);
      queue := queue[nextId := Entry(req.sid, 0, now)];
      nextId := nextId + 1;
    }

    method AbandonSession(sid: Sid, name: Label) returns (why: Option<Refusal>)
      modifies this`meta, this`pointer
      ensures var agent := Named(cfg, name);
              why == AbandonRefusal(old(View()), sid, agent)
              && View() == if why.Some? then old(View()) else AbandonCommit(old(View()), sid, agent)
    {
      var agent := Named(cfg, name);
      why := AbandonRefusal(View(), sid, agent);
      if why.Some? {
        return;
      }
      var stale := StaleLabels(pointer, {meta[sid].agent, agent}, sid);
      pointer := pointer - stale;
      assert pointer == DropPointers(old(pointer), {meta[sid].agent, agent}, sid);
      meta := meta[sid := meta[sid].(status := Abandoned, expiring := true)];
    }

    // The part of update that concerns the session itself; what is written into
    // it is the subject of module SessionContents.
    method Update(named: Option<Sid>, name: Label, caller: Option<Caller>, ts: int) returns (why: Option<Refusal>)
      modifies this`meta, this`index
      ensures var agent, st := Named(cfg, name), old(View());
              why == UpdateRefusal(cfg, st, named, agent, caller)
              && View() == if why.Some? then st else UpdateCommit(st, UpdateTarget(st, named, agent).value, ts)
    {
      var agent := Named(cfg, name);
      var target := if named.Some? && named.value != "" then named else Lookup(pointer, agent);
      if target.None? {
        return Some(NoSession);
      }
      var sid := target.value;
      if caller.Some? && sid in meta && !Owns(cfg.deployment, meta[sid].owner, caller.value) {
        return Some(WrongOwner);
      }
      if sid in meta && (meta[sid].status == Completed || meta[sid].status == Abandoned) {
        return Some(Finished);
      }
      if named.Some? && sid !in meta {
        return Some(NotFound);
      }
      meta := meta[sid := Hash(meta, sid)];
      index := ZAdd(index, sid, ts);
      return None;
    }

    // reap_pass over the entries its ZRANGEBYSCORE returned.
    method ReapPass(cutoff: int, maxPerPass: nat) returns (scanned: nat, reaped: nat, skipped: nat)
      modifies this`meta, this`pointer, this`index
      ensures var candidates := IdleEntries(old(index), cutoff, maxPerPass);
              && View() == ReapAll(cfg, old(View()), candidates)
              && scanned == |candidates| == reaped + skipped
              && reaped == |Reaped(old(meta), meta)|
    {
      ghost var start := View();
      var candidates := IdleEntries(index, cutoff, maxPerPass);
      scanned, reaped, skipped := 0, 0, 0;
      assert Reaped(start.meta, start.meta) == {};
      for i := 0 to |candidates|
        invariant View() == ReapAll(cfg, start, candidates[..i])
        invariant scanned == i == reaped + skipped
        invariant reaped == |Reaped(start.meta, meta)|
      {
        hide ReapOne;
        assert candidates[..i + 1][..i] == candidates[..i];
        var did := ReapCandidate(candidates[i].sid);
        ReapedGrows(cfg, start, candidates, i);
        scanned := scanned + 1;
        reaped := reaped + if did then 1 else 0;
        skipped := skipped + if did then 0 else 1;
      }
      assert candidates[..|candidates|] == candidates;
    }

    // One candidate; true if it was abandoned.
    method ReapCandidate(sid: Sid) returns (did: bool)
      modifies this`meta, this`pointer, this`index
      ensures View() == ReapOne(cfg, old(View()), sid)
      ensures did <==> sid in old(meta) && old(meta)[sid].status == Active && meta != old(meta)
    {
      if sid !in meta {
        index := ZRem(index, sid);
        return false;
      }
      if meta[sid].status != Active {
        return false;
      }
      var why := AbandonSession(sid, meta[sid].agent);
      assert why.None? ==> meta[sid].status == Abandoned;
      return why.None?;
    }
  }

  // The sessions that were active before and are abandoned after.
  function Reaped(before: map<Sid, Meta>, after: map<Sid, Meta>): set<Sid> {
    set s | s in before && s in after && before[s].status == Active && after[s].status == Abandoned
  }

  lemma ReapedGrows(cfg: Config, start: Store, candidates: seq<Scored>, i: nat)
    requires i < |candidates|
    ensures var before, sid := ReapAll(cfg, start, candidates[..i]), candidates[i].sid;
            var after := ReapOne(cfg, before, sid);
            var did := sid in before.meta && before.meta[sid].status == Active && after.meta != before.meta;
            |Reaped(start.meta, after.meta)| == |Reaped(start.meta, before.meta)| + if did then 1 else 0
  {
    ReapAllAbandons(cfg, start, candidates[..i]);
    hide ReapAll;
    var before, sid := ReapAll(cfg, start, candidates[..i]), candidates[i].sid;
    var after := ReapOne(cfg, before, sid);
    if after.meta == before.meta {
    } else {
      assert Reaped(start.meta, after.meta) == Reaped(start.meta, before.meta) + {sid};
      assert sid !in Reaped(start.meta, before.meta);
    }
  }

  // ---- one turn of the retry loops ----

  lemma TryOnce(
    cfg: Config, st: Store, agent: Label, caller: Option<Caller>, allow: Option<Sid>, rivals: Rivals,
    commit: Store -> Store, k: nat)
    requires k < POINTER_RETRIES
    ensures ScriptTries(cfg, st, agent, caller, allow, rivals, commit, k)
         == if GuardRefuses(cfg, st, agent, caller, allow) then Tried(st, Some(WrongOwner))
            else if Moved(st, rivals(k)(st), agent, caller) then
              ScriptTries(cfg, rivals(k)(st), agent, caller, allow, rivals, commit, k + 1)
            else Tried(commit(rivals(k)(st)), None)
  {
    hide GuardRefuses, Moved;
  }

  lemma OutOfTries(
    cfg: Config, st: Store, agent: Label, caller: Option<Caller>, allow: Option<Sid>, rivals: Rivals,
    commit: Store -> Store)
    ensures ScriptTries(cfg, st, agent, caller, allow, rivals, commit, POINTER_RETRIES) == Tried(st, Some(Contended))
  {
  }

  lemma ResumableIsThere(cfg: Config, st: Store, sid: Sid, agent: Label, takeover: bool, auth: Auth)
    ensures ResumeRefusal(cfg, st, sid, agent, takeover, auth).None? ==> sid in st.meta
  {
  }

  lemma CompleteOnce(cfg: Config, st: Store, req: CompleteRequest, rivals: Rivals, rewritten: set<nat>, k: nat)
    requires k < COMPLETE_RETRIES
    ensures var m := Lookup(st.meta, req.sid);
            var why := CompleteRefusal(cfg, m, req);
            var now := rivals(k)(st);
            (CompleteTries(cfg, st, req, rivals, rewritten, k)
             == if why.Some? then (st, Refused(why.value))
                else if k in rewritten || DisturbedKeys(st, now, req, m.value) then
                  CompleteTries(cfg, now, req, rivals, rewritten, k + 1)
                else (CompleteCommit(now, req), Done(CompleteReplyOf(m.value, req))))
  {
    hide CompleteCommit, CompleteReplyOf;
  }

  lemma OutOfCompletions(cfg: Config, st: Store, req: CompleteRequest, rivals: Rivals, rewritten: set<nat>)
    ensures CompleteTries(cfg, st, req, rivals, rewritten, COMPLETE_RETRIES) == (st, Refused(Contended))
  {
  }

  // What an undisturbed completion read of the pointers is still true of them.
  lemma StaleStays(read: Store, now: Store, labels: set<Label>, sid: Sid)
    requires forall l :: l in labels && l != "" ==> Lookup(read.pointer, l) == Lookup(now.pointer, l)
    ensures StaleLabels(read.pointer, labels, sid) == StaleLabels(now.pointer, labels, sid)
  {
    forall l | l in labels
      ensures l in StaleLabels(read.pointer, labels, sid) <==> l in StaleLabels(now.pointer, labels, sid)
    {
      assert l != "" ==> Lookup(read.pointer, l) == Lookup(now.pointer, l);
    }
  }

  // The longest-idle entries scored at or below the cutoff.
  function IdleEntries(index: seq<Scored>, cutoff: int, most: nat): seq<Scored> {
    if index == [] || most == 0 then []
    else if index[0].score <= cutoff then [index[0]] + IdleEntries(index[1..], cutoff, most - 1)
    else IdleEntries(index[1..], cutoff, most)
  }

  // Lowest score first, they are the front of the index: as many as are asked for,
  // or all that are idle.
  lemma {:induction false} IdleEntriesAre(index: seq<Scored>, cutoff: int, most: nat)
    requires Sorted(index)
    ensures var idle := IdleEntries(index, cutoff, most);
            && idle <= index && |idle| <= most && (forall e :: e in idle ==> e.score <= cutoff)
            && (|idle| < most ==> forall e :: e in index && e.score <= cutoff ==> e in idle)
  {
    if index != [] && most > 0 {
      var rest := index[1..];
      if index[0].score <= cutoff {
        IdleEntriesAre(rest, cutoff, most - 1);
        assert index == [index[0]] + rest;
      } else {
        NoneIdle(index, cutoff, most);
        assert forall e :: e in index ==> index[0].score <= e.score;
      }
    }
  }

  lemma {:induction false} NoneIdle(index: seq<Scored>, cutoff: int, most: nat)
    requires forall e :: e in index ==> e.score > cutoff
    ensures IdleEntries(index, cutoff, most) == []
  {
    if index != [] && most > 0 {
      NoneIdle(index[1..], cutoff, most);
    }
  }

  function ReapAll(cfg: Config, st: Store, candidates: seq<Scored>): Store {
    if candidates == [] then st
    else ReapOne(cfg, ReapAll(cfg, st, candidates[..|candidates| - 1]), candidates[|candidates| - 1].sid)
  }

  // A pass abandons every active candidate and touches no other session.
  lemma {:induction false} ReapAllAbandons(cfg: Config, st: Store, candidates: seq<Scored>)
    ensures var after := ReapAll(cfg, st, candidates);
            && after.meta.Keys == st.meta.Keys
            && forall s :: s in st.meta ==>
                 if st.meta[s].status == Active && s != "" && (exists e :: e in candidates && e.sid == s)
                 then after.meta[s] == st.meta[s].(status := Abandoned, expiring := true)
                 else after.meta[s] == st.meta[s]
  {
    if candidates != [] {
      ReapAllAbandons(cfg, st, candidates[..|candidates| - 1]);
      var last := candidates[|candidates| - 1];
      assert forall e :: e in candidates <==> e == last || e in candidates[..|candidates| - 1];
    }
  }

  // Of the pointers, a pass drops those by which an abandoned session's own label
  // names it, the default label standing in for none; of the index, the entries of
  // candidates without metadata.
  lemma {:induction false} ReapAllReleases(cfg: Config, st: Store, candidates: seq<Scored>)
    ensures var after := ReapAll(cfg, st, candidates);
            && (forall l :: l in after.pointer ==> Lookup(st.pointer, l) == Some(after.pointer[l]))
            && (forall l :: l in st.pointer ==>
              (l !in after.pointer <==>
                var s := st.pointer[l];
                && s in st.meta && st.meta[s].status == Active && s != "" && (exists e :: e in candidates && e.sid == s)
                && l != "" && l == (if st.meta[s].agent == "" then cfg.defaultAgent else st.meta[s].agent)))
            && (forall x :: x in after.index <==>
              x in st.index && !(x.sid !in st.meta && exists e :: e in candidates && e.sid == x.sid))
  {
    if candidates != [] {
      var most, last := candidates[..|candidates| - 1], candidates[|candidates| - 1];
      ReapAllReleases(cfg, st, most);
      ReapAllAbandons(cfg, st, most);
      assert forall e :: e in candidates <==> e == last || e in most;
      ReapOneReleases(cfg, ReapAll(cfg, st, most), last.sid);
      hide ReapOne;
    }
  }

  lemma ReapOneReleases(cfg: Config, st: Store, sid: Sid)
    ensures var after := ReapOne(cfg, st, sid);
            && (forall l :: l in after.pointer ==> Lookup(st.pointer, l) == Some(after.pointer[l]))
            && (forall l :: l in st.pointer ==>
              (l !in after.pointer <==>
                && st.pointer[l] == sid && sid in st.meta && st.meta[sid].status == Active && sid != ""
                && l != "" && l == (if st.meta[sid].agent == "" then cfg.defaultAgent else st.meta[sid].agent)))
            && (forall x :: x in after.index <==> x in st.index && !(x.sid !in st.meta && x.sid == sid))
  {
    ZRemKeeps(st.index, sid);
  }
}
