/** What the session operations change, and all they change, said field by field. */
module Effects {
  import opened Wrappers
  import opened Principal
  import opened SessionStore
  import opened Eviction

  // Every session but these is as it was, in the metadata and in the index.
  predicate OthersKept(before: Store, after: Store, sids: set<Sid>) {
    && (forall s | s in before.meta.Keys + after.meta.Keys && s !in sids ::
      Lookup(after.meta, s) == Lookup(before.meta, s))
    && after.index == before.index
  }

  predicate KeepsRecord(m: Meta, n: Meta) {
    n.owner == m.owner && n.grade == m.grade && n.gradeSource == m.gradeSource && n.evidence == m.evidence
  }

  // Of the pointers, those of these labels to this session are gone, and no other.
  predicate OnlyReleases(before: Store, after: Store, labels: set<Label>, sid: Sid) {
    && (forall l | l in after.pointer :: Lookup(before.pointer, l) == Some(after.pointer[l]))
    && (forall l | l in before.pointer ::
      l !in after.pointer <==> l in labels && l != "" && before.pointer[l] == sid)
  }

  // A completed session waits for its distillation and is pointed at neither by
  // its own label nor by the caller's. CompletionGrades has its grade.
  lemma CompletionMeans(cfg: Config, st: Store, req: CompleteRequest)
    requires CompleteRefusal(cfg, Lookup(st.meta, req.sid), req).None? && req.sid != ""
    ensures var after, m := CompleteCommit(st, req), st.meta[req.sid];
            && req.sid in after.meta && OthersKept(st, after, {req.sid})
            && OnlyReleases(st, after, {m.agent, req.agent}, req.sid)
            && var n := after.meta[req.sid];
               && n.status == Completed && n.distillation == Queued && n.outcome == req.outcome
               && n.agent == m.agent && n.owner == m.owner && n.expiring == m.expiring
    ensures var after := CompleteCommit(st, req);
            forall l :: l != "" && l in {st.meta[req.sid].agent, req.agent} ==>
              Lookup(after.pointer, l) != Some(req.sid)
  {
  }

  predicate IsResult(grade: string) { grade == "success" || grade == "partial" || grade == "failure" }

  // A grade on record that counts: a result its own reporter gave.
  predicate HasStanding(m: Meta) {
    IsResult(m.grade) && m.gradeSource == "self_reported"
  }

  // The first result reported for a session with an owner is stored, with its
  // evidence, and reported back. Anything else leaves the record as it was,
  // reports what stands on it, and says when a result was dropped.
  lemma CompletionGrades(st: Store, req: CompleteRequest)
    requires req.sid in st.meta
    ensures var m, n := st.meta[req.sid], CompleteCommit(st, req).meta[req.sid];
            var reply := CompleteReplyOf(m, req);
            if m.owner.member != "" && IsResult(req.submitted) && !HasStanding(m) then
              && n.grade == req.submitted && n.gradeSource == "self_reported" && n.evidence == req.evidence
              && reply.grade == Some(req.submitted) && !reply.dropped
            else
              && n.grade == m.grade && n.gradeSource == m.gradeSource && n.evidence == m.evidence
              && reply.grade == (if m.owner.member != "" && HasStanding(m) then Some(m.grade) else None)
              && (reply.dropped <==> IsResult(req.submitted))
  {
  }

  lemma AbandonMeans(st: Store, sid: Sid, agent: Label)
    requires AbandonRefusal(st, sid, agent).None?
    ensures var after, m := AbandonCommit(st, sid, agent), st.meta[sid];
            && sid in after.meta && OthersKept(st, after, {sid}) && OnlyReleases(st, after, {m.agent, agent}, sid)
            && after.meta[sid] == m.(status := Abandoned, expiring := true)
            && forall l :: l != "" && l in {m.agent, agent} ==> Lookup(after.pointer, l) != Some(sid)
  {
  }

  // Resuming takes the label over: the session it named before is paused, the
  // label the session had before lets go of it, and its record stays.
  lemma ResumeMeans(cfg: Config, st: Store, sid: Sid, agent: Label, takeover: bool, auth: Auth, ts: int)
    requires ResumeRefusal(cfg, st, sid, agent, takeover, auth).None?
    ensures var after, m := ResumeCommit(st, sid, agent, ts), st.meta[sid];
            var displaced := Lookup(st.pointer, agent);
            && sid in after.meta && KeepsRecord(m, after.meta[sid])
            && after.meta[sid].status == Active && after.meta[sid].agent == agent && !after.meta[sid].expiring
            && Lookup(after.pointer, agent) == Some(sid)
            && (m.agent != agent && m.agent != "" ==> Lookup(after.pointer, m.agent) != Some(sid))
            && (forall l :: l != agent && l != m.agent ==> Lookup(after.pointer, l) == Lookup(st.pointer, l))
            && (forall e :: e in after.index <==>
              if displaced.Some? && displaced.value != sid
              then e == Scored(displaced.value, ts) || (e in st.index && e.sid != displaced.value)
              else e in st.index)
            && (displaced.Some? && displaced.value != sid ==>
              displaced.value in after.meta && after.meta[displaced.value].status == Paused)
            && (forall l :: l != agent && Lookup(st.pointer, l) != Some(sid) ==>
              Lookup(after.pointer, l) == Lookup(st.pointer, l))
            && (forall s :: s != sid && Some(s) != displaced ==> Lookup(after.meta, s) == Lookup(st.meta, s))
  {
    hide ZAdd, Owns;
    if agent in st.pointer {
      ZAddIs(st.index, st.pointer[agent], ts);
    }
  }

  // Starting then resuming what the start displaced puts the label back.
  lemma ResumeUndoesStart(st: Store, agent: Label, sid: Sid, owner: Owner, ts: int, later: int)
    requires FreshId(st, sid) && agent != "" && agent in st.pointer
    requires var held := st.pointer[agent];
             && held in st.meta && st.meta[held].status == Active
             && st.meta[held].agent == agent && !st.meta[held].expiring
    ensures var started := Begun(st, agent, sid, owner, ts);
            var prior := st.pointer[agent];
            && started.meta[prior].status == Paused && started.pointer[agent] == sid && prior in started.meta
            && var back := ResumeCommit(started, prior, agent, later);
               && back.pointer == st.pointer
               && back.meta == st.meta[sid := Fresh(agent, owner).(status := Paused)]
  {
    hide ZAdd;
  }

  // Who may resume: an owner, a session that is not over, under its own label or
  // by an explicit takeover of one that is not active.
  lemma ResumeAllowedIff(cfg: Config, st: Store, sid: Sid, agent: Label, takeover: bool, auth: Auth)
    ensures ResumeRefusal(cfg, st, sid, agent, takeover, auth).None? <==>
      sid in st.meta && var m := st.meta[sid];
        && !Refuses(cfg, m.owner, auth) && !Terminal(m.status)
        && (m.agent in {"", agent} || (takeover && m.status != Active))
  {
  }

  // The caller passed owns the session, or none was passed and the member claimed
  // is the session's, if it has one.
  predicate MayAct(cfg: Config, owner: Owner, auth: Auth) {
    match auth
    case Verified(caller) => Owns(cfg.deployment, owner, caller)
    case Claimed(member) => owner.member == "" || owner.member == member
  }

  predicate Elsewhere(m: Meta, agent: Label) { m.agent != "" && m.agent != agent }

  predicate Over(m: Meta) { m.status == Completed || m.status == Abandoned }

  // Which refusal a resume is answered with: ownership is settled before anything
  // else is told about the session.
  lemma ResumeRefusalsAre(cfg: Config, st: Store, sid: Sid, agent: Label, takeover: bool, auth: Auth)
    ensures var why := ResumeRefusal(cfg, st, sid, agent, takeover, auth);
            && (why == Some(NotFound) <==> sid !in st.meta)
            && (sid in st.meta ==>
              var m := st.meta[sid];
              && (why == Some(WrongOwner) <==> !MayAct(cfg, m.owner, auth))
              && (why == Some(Finished) <==> MayAct(cfg, m.owner, auth) && Over(m))
              && (why == Some(WrongLabel) <==>
                MayAct(cfg, m.owner, auth) && !Over(m) && Elsewhere(m, agent) && !takeover)
              && (why == Some(Busy) <==>
                MayAct(cfg, m.owner, auth) && Elsewhere(m, agent) && takeover && m.status == Active)
              && (why.None? <==>
                MayAct(cfg, m.owner, auth) && !Over(m) && (Elsewhere(m, agent) ==> takeover && m.status != Active)))
  {
    hide Owns;
  }

  // Which refusal a completion is answered with: the label first, then ownership;
  // a session that is over may be completed again.
  lemma CompleteRefusalsAre(cfg: Config, st: Store, req: CompleteRequest)
    ensures var why := CompleteRefusal(cfg, Lookup(st.meta, req.sid), req);
            && (why == Some(NotFound) <==> req.sid !in st.meta)
            && (req.sid in st.meta ==>
              var m := st.meta[req.sid];
              && (why == Some(WrongLabel) <==> Elsewhere(m, req.agent))
              && (why == Some(WrongOwner) <==> !Elsewhere(m, req.agent) && !MayAct(cfg, m.owner, req.auth))
              && (why.None? <==> !Elsewhere(m, req.agent) && MayAct(cfg, m.owner, req.auth)))
  {
    hide Owns;
  }

  lemma AbandonRefusalsAre(st: Store, sid: Sid, agent: Label)
    ensures var why := AbandonRefusal(st, sid, agent);
            && (why == Some(NoSession) <==> sid == "")
            && (why == Some(NotFound) <==> sid != "" && sid !in st.meta)
            && (why == Some(WrongLabel) <==> sid != "" && sid in st.meta && Elsewhere(st.meta[sid], agent))
            && (why.None? <==> sid != "" && sid in st.meta && !Elsewhere(st.meta[sid], agent))
  {
  }

  // Which refusal a write is answered with, ownership first again.
  lemma UpdateRefusalsAre(cfg: Config, st: Store, named: Option<Sid>, agent: Label, caller: Option<Caller>)
    ensures var why := UpdateRefusal(cfg, st, named, agent, caller);
            var target := if named.Some? && named.value != "" then named else Lookup(st.pointer, agent);
            && (why == Some(NoSession) <==> target.None?)
            && (target.Some? ==>
              var there := target.value in st.meta;
              var foreign := there && caller.Some? && !Owns(cfg.deployment, st.meta[target.value].owner, caller.value);
              && (why == Some(WrongOwner) <==> foreign)
              && (why == Some(Finished) <==> there && !foreign && Over(st.meta[target.value]))
              && (why == Some(NotFound) <==> !there && named.Some?)
              && (why.None? <==> if there then !foreign && !Over(st.meta[target.value]) else named.None?))
  {
    hide Owns;
  }

  // A write is accepted into the session named, or else the one the label points
  // at, if the caller owns it and it is not over; one without metadata takes a
  // write only through the pointer.
  lemma UpdateAllowedIff(cfg: Config, st: Store, named: Option<Sid>, agent: Label, caller: Option<Caller>)
    ensures var target := if named.Some? && named.value != "" then named else Lookup(st.pointer, agent);
            && UpdateTarget(st, named, agent) == target
            && (UpdateRefusal(cfg, st, named, agent, caller).None? <==>
              target.Some? && if target.value in st.meta
                then var m := st.meta[target.value];
                  !Terminal(m.status) && (caller.Some? ==> Owns(cfg.deployment, m.owner, caller.value))
                else named.None? && Lookup(st.pointer, agent) == target)
  {
    hide Owns;
  }

  // Nothing changes but the session's place in the index, and that a session
  // without metadata, one a dangling pointer names, gets a bare hash.
  lemma UpdateMeans(cfg: Config, st: Store, named: Option<Sid>, agent: Label, caller: Option<Caller>, ts: int)
    requires UpdateRefusal(cfg, st, named, agent, caller).None?
    ensures var sid := UpdateTarget(st, named, agent).value;
            var after := UpdateCommit(st, sid, ts);
            && after.pointer == st.pointer && sid in after.meta
            && (forall s :: s in st.meta ==> Lookup(after.meta, s) == Some(st.meta[s]))
            && (forall s :: s in after.meta && s !in st.meta ==>
              s == sid && after.meta[s] == BLANK && Lookup(st.pointer, agent) == Some(s))
            && (forall e :: e in after.index <==> e == Scored(sid, ts) || (e in st.index && e.sid != sid))
  {
    hide Owns, ZAdd;
    UpdateAllowedIff(cfg, st, named, agent, caller);
    ZAddIs(st.index, UpdateTarget(st, named, agent).value, ts);
  }

  lemma ZAddIs(index: seq<Scored>, sid: Sid, ts: int)
    ensures forall e :: e in ZAdd(index, sid, ts) <==> e == Scored(sid, ts) || (e in index && e.sid != sid)
  {
    ZRemKeeps(index, sid);
    ZInsertKeeps(ZRem(index, sid), Scored(sid, ts));
  }

  // ---- starting ----

  // An entry of an active session outlives every sweep.
  lemma {:induction false} SweepKeepsActive(cfg: Config, st: Store, oldest: seq<Scored>, e: Scored)
    requires e in st.index && e.sid in st.meta && st.meta[e.sid].status == Active
    ensures var after := EvictAll(cfg, st, oldest);
            e in after.index && e.sid in after.meta && after.meta[e.sid] == st.meta[e.sid]
  {
    if oldest != [] {
      var n := |oldest| - 1;
      SweepKeepsActive(cfg, st, oldest[..n], e);
      ZRemKeeps(EvictAll(cfg, st, oldest[..n]).index, oldest[n].sid);
    }
  }

  // What a start leaves: the new session, active under its label with exactly the
  // owner given and nothing else on its record; the session the label named
  // before paused; every other session as it was, or swept though neither active
  // nor awaiting distillation; every other label as it was.
  lemma StartMeans(cfg: Config, st: Store, agent: Label, sid: Sid, owner: Owner, ts: int)
    requires FreshId(st, sid)
    ensures var after := StartCommit(cfg, st, agent, sid, owner, ts);
            && sid in after.meta
            && var n := after.meta[sid];
               && n.status == Active && n.agent == agent && n.owner == owner && !n.expiring
               && n.grade == "" && n.gradeSource == "" && n.evidence == [] && n.outcome == ""
               && n.distillation == Idle
    ensures var after := StartCommit(cfg, st, agent, sid, owner, ts);
            && Scored(sid, ts) in after.index
            && (forall e :: e in after.index ==>
              || e == Scored(sid, ts) || (e.score == ts && Lookup(st.pointer, agent) == Some(e.sid))
              || (e in st.index && e.sid != sid && Lookup(st.pointer, agent) != Some(e.sid)))
            && Lookup(after.pointer, agent) == Some(sid)
            && forall l :: l != agent ==> Lookup(after.pointer, l) == Lookup(st.pointer, l)
    ensures var after := StartCommit(cfg, st, agent, sid, owner, ts);
            forall s :: s != sid && s in after.meta ==>
              if Lookup(st.pointer, agent) == Some(s)
              then after.meta[s] == (if s in st.meta then st.meta[s] else BLANK).(status := Paused)
              else s in st.meta && after.meta[s] == st.meta[s]
    ensures var after := StartCommit(cfg, st, agent, sid, owner, ts);
            forall s :: s in st.meta && s !in after.meta ==>
              || Lookup(st.pointer, agent) == Some(s)
              || !(st.meta[s].status == Active || (st.meta[s].status == Completed && st.meta[s].distillation == Queued))
  {
    hide ZAdd;
    var begun := Begun(st, agent, sid, owner, ts);
    BegunIsListed(st, agent, sid, owner, ts);
    EvictAllThins(cfg, begun, Candidates(cfg, begun));
    SweepAddsNothing(cfg, begun, Candidates(cfg, begun));
    SweepKeepsActive(cfg, begun, Candidates(cfg, begun), Scored(sid, ts));
    hide EvictAll, Candidates;
  }

  // Before the sweep, the index has the new session and the displaced one at the
  // time of the start, and the others where they were.
  lemma BegunIsListed(st: Store, agent: Label, sid: Sid, owner: Owner, ts: int)
    ensures var displaced := Lookup(st.pointer, agent);
            forall e :: e in Begun(st, agent, sid, owner, ts).index <==>
              || e == Scored(sid, ts) || (displaced == Some(e.sid) && e.score == ts && e.sid != sid)
              || (e in st.index && e.sid != sid && displaced != Some(e.sid))
  {
    hide ZAdd;
    ZAddIs(Displaced(st, agent, ts).index, sid, ts);
    if agent in st.pointer {
      ZAddIs(st.index, st.pointer[agent], ts);
    }
  }

  lemma {:induction false} SweepAddsNothing(cfg: Config, st: Store, oldest: seq<Scored>)
    ensures forall e :: e in EvictAll(cfg, st, oldest).index ==> e in st.index
  {
    if oldest != [] {
      var n := |oldest| - 1;
      SweepAddsNothing(cfg, st, oldest[..n]);
      ZRemKeeps(EvictAll(cfg, st, oldest[..n]).index, oldest[n].sid);
    }
  }

  // So the new session's owner is the member and workspace the start was given.
  lemma StarterOwns(
    cfg: Config, st: Store, agent: Label, sid: Sid, member: string, workspace: string, ts: int, c: Caller)
    requires FreshId(st, sid) && member != "" && workspace != ""
    ensures var after := StartCommit(cfg, st, agent, sid, Owner(member, workspace), ts);
            sid in after.meta
            && (Owns(cfg.deployment, after.meta[sid].owner, c) <==> c.member == member && c.workspace == workspace)
  {
    hide StartCommit, Owns;
    StartMeans(cfg, st, agent, sid, Owner(member, workspace), ts);
    OwnersAre(cfg.deployment, member, workspace, c);
  }

  // ---- sweeping, reaping, expiring ----

  // An index within the maximum is left alone, and so is everything else.
  lemma SmallIndexIsKept(cfg: Config, st: Store)
    requires |st.index| <= cfg.maxSessions
    ensures Evict(cfg, st) == st
  {
  }

  lemma ExpiryMeans(st: Store, sid: Sid)
    ensures var after := Expire(st, sid);
            && after.pointer == st.pointer && after.index == st.index
            && forall s :: s in after.meta <==> s in st.meta && !(s == sid && st.meta[s].expiring)
    ensures forall s :: s in Expire(st, sid).meta ==> Expire(st, sid).meta[s] == st.meta[s]
  {
  }

  // A status write marks its session and nothing else; it may find no hash and
  // leave one with nothing else in it. A TTL needs a hash.
  lemma WorkerWritesMean(st: Store, sid: Sid, d: Distillation)
    ensures var marked := SetDistillation(st, sid, d);
            && sid in marked.meta && OthersKept(st, marked, {sid}) && marked.pointer == st.pointer
            && marked.meta[sid] == (if sid in st.meta then st.meta[sid] else BLANK).(distillation := d)
    ensures var timed := SetExpiry(st, sid);
            && timed.meta.Keys == st.meta.Keys && OthersKept(st, timed, {sid}) && timed.pointer == st.pointer
            && (sid in st.meta ==> timed.meta[sid] == st.meta[sid].(expiring := true))
  {
  }
}
