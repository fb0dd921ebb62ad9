/** The Redis state one Bridge deployment keeps about its sessions, and what
    each session operation of bridge/app/session.py does to it as a whole. */
module SessionStore {
  import opened Wrappers
  import opened Principal

  type Sid = string
  type Label = string

  datatype Status = Unset | Active | Paused | Completed | Abandoned

  // Idle stands for "" and for the pre-queue values.
  datatype Distillation = Idle | Queued | Succeeded | DeadLettered

  /** A session's metadata hash; a field the hash lacks reads as its empty value. */
  datatype Meta = Meta(
    status: Status,
    agent: Label,
    owner: Owner,
    grade: string,
    gradeSource: string,
    evidence: seq<string>,
    outcome: string,
    distillation: Distillation,
    expiring: bool)  // the key carries a TTL

  const BLANK := Meta(Unset, "", Owner("", ""), "", "", [], "", Idle, false)

  datatype Scored = Scored(sid: Sid, score: int)

  datatype Store = Store(
    meta: map<Sid, Meta>,
    pointer: map<Label, Sid>,
    index: seq<Scored>)  // nb:sessions, lowest score first

  datatype Config = Config(maxSessions: nat, defaultAgent: Label, deployment: Deployment)

  predicate Terminal(s: Status) { s == Completed || s == Abandoned }

  predicate Live(s: Status) { s == Active || s == Paused }

  function Named(cfg: Config, agent: Label): Label {
    if agent == "" then cfg.defaultAgent else agent
  }

  // What an HSET on this key starts from.
  function Hash(meta: map<Sid, Meta>, sid: Sid): Meta {
    if sid in meta then meta[sid] else BLANK
  }

  // ---- the scored index ----

  function ZRem(index: seq<Scored>, sid: Sid): seq<Scored> {
    if index == [] then []
    else (if index[0].sid == sid then [] else [index[0]]) + ZRem(index[1..], sid)
  }

  function ZInsert(index: seq<Scored>, e: Scored): seq<Scored> {
    if index == [] || e.score < index[0].score then [e] + index
    else [index[0]] + ZInsert(index[1..], e)
  }

  function ZAdd(index: seq<Scored>, sid: Sid, score: int): seq<Scored> {
    ZInsert(ZRem(index, sid), Scored(sid, score))
  }

  // ---- pieces shared by the operations ----

  function Pause(st: Store, sid: Sid, ts: int): Store {
    st.(meta := st.meta[sid := Hash(st.meta, sid).(status := Paused)],
        index := ZAdd(st.index, sid, ts))
  }

  function Delete(st: Store, sid: Sid): Store {
    st.(meta := st.meta - {sid}, index := ZRem(st.index, sid))
  }

  // Pointers of the given labels that name sid are dropped.
  function DropPointers(pointer: map<Label, Sid>, labels: set<Label>, sid: Sid): map<Label, Sid> {
    map l | l in pointer && !(l in labels && l != "" && pointer[l] == sid) :: pointer[l]
  }

  // ---- _enforce_max_sessions ----

  function EvictOne(cfg: Config, st: Store, sid: Sid): Store {
    if sid !in st.meta then
      st.(index := ZRem(st.index, sid))
    else
      var m := st.meta[sid];
      if Live(m.status) then
        if |st.index| > 2 * cfg.maxSessions && m.status == Paused then Delete(st, sid) else st
      else if m.status == Completed && m.distillation == Queued then
        st
      else
        Delete(st, sid)
  }

  function EvictAll(cfg: Config, st: Store, oldest: seq<Scored>): Store {
    if oldest == [] then st
    else EvictOne(cfg, EvictAll(cfg, st, oldest[..|oldest| - 1]), oldest[|oldest| - 1].sid)
  }

  function Candidates(cfg: Config, st: Store): seq<Scored> {
    if |st.index| <= cfg.maxSessions then [] else st.index[..|st.index| - cfg.maxSessions]
  }

  function Evict(cfg: Config, st: Store): Store {
    EvictAll(cfg, st, Candidates(cfg, st))
  }

  // ---- start_session ----

  function Fresh(agent: Label, owner: Owner): Meta {
    BLANK.(status := Active, agent := agent, owner := owner)
  }

  predicate FreshId(st: Store, sid: Sid) { sid != "" && sid !in st.meta }

  // The agent's active session, if any, is paused.
  function Displaced(st: Store, agent: Label, ts: int): Store {
    if agent in st.pointer then Pause(st, st.pointer[agent], ts) else st
  }

  function Begun(st: Store, agent: Label, sid: Sid, owner: Owner, ts: int): Store {
    var displaced := Displaced(st, agent, ts);
    displaced.(
      pointer := displaced.pointer[agent := sid],
      meta := displaced.meta[sid := Fresh(agent, owner)],
      index := ZAdd(displaced.index, sid, ts))
  }

  function StartCommit(cfg: Config, st: Store, agent: Label, sid: Sid, owner: Owner, ts: int): Store {
    Evict(cfg, Begun(st, agent, sid, owner, ts))
  }

  // ---- who may act on a session ----

  // Verified: the caller argument was passed. Claimed: it was not, and only
  // verified_member is compared ("" stands for none).
  datatype Auth = Verified(caller: Caller) | Claimed(member: string)

  predicate Refuses(cfg: Config, owner: Owner, auth: Auth) {
    match auth
    case Verified(caller) => !Owns(cfg.deployment, owner, caller)
    case Claimed(member) => owner.member != "" && member != owner.member
  }

  datatype Refusal = NoSession | NotFound | WrongOwner | WrongLabel | Finished | Busy | Contended

  // ---- resume_session ----

  function ResumeRefusal(cfg: Config, st: Store, sid: Sid, agent: Label, takeover: bool, auth: Auth)
    : Option<Refusal>
  {
    if sid !in st.meta then Some(NotFound)
    else
      var m := st.meta[sid];
      if Refuses(cfg, m.owner, auth) then Some(WrongOwner)
      else if Terminal(m.status) then Some(Finished)
      else if m.agent != "" && m.agent != agent && !takeover then Some(WrongLabel)
      else if m.agent != "" && m.agent != agent && m.status == Active then Some(Busy)
      else None
  }

  function ResumeCommit(st: Store, sid: Sid, agent: Label, ts: int): Store
    requires sid in st.meta
  {
    var previous := st.meta[sid].agent;
    var displaced := if Lookup(st.pointer, agent) == Some(sid) then st else Displaced(st, agent, ts);
    var released :=
      if previous != agent then DropPointers(displaced.pointer, {previous}, sid) else displaced.pointer;
    displaced.(
      pointer := released[agent := sid],
      meta := displaced.meta[sid := Hash(displaced.meta, sid).(status := Active, agent := agent, expiring := false)])
  }

  // ---- abandon_session ----

  function AbandonRefusal(st: Store, sid: Sid, agent: Label): Option<Refusal> {
    if sid == "" then Some(NoSession)
    else if sid !in st.meta then Some(NotFound)
    else if st.meta[sid].agent != "" && st.meta[sid].agent != agent then Some(WrongLabel)
    else None
  }

  function AbandonCommit(st: Store, sid: Sid, agent: Label): Store
    requires sid in st.meta
  {
    st.(pointer := DropPointers(st.pointer, {st.meta[sid].agent, agent}, sid),
        meta := st.meta[sid := st.meta[sid].(status := Abandoned, expiring := true)])
  }

  // One candidate of a reap_pass.
  function ReapOne(cfg: Config, st: Store, sid: Sid): Store {
    if sid !in st.meta then st.(index := ZRem(st.index, sid))
    else if st.meta[sid].status != Active || AbandonRefusal(st, sid, Named(cfg, st.meta[sid].agent)).Some? then st
    else AbandonCommit(st, sid, Named(cfg, st.meta[sid].agent))
  }

  // ---- update ----

  // The session a write lands in: a named one, else the agent's active one.
  function UpdateTarget(st: Store, named: Option<Sid>, agent: Label): Option<Sid> {
    if named.Some? && named.value != "" then named else Lookup(st.pointer, agent)
  }

  function UpdateRefusal(cfg: Config, st: Store, named: Option<Sid>, agent: Label, caller: Option<Caller>)
    : Option<Refusal>
  {
    match UpdateTarget(st, named, agent)
    case None => Some(NoSession)
    case Some(sid) =>
      if sid in st.meta && caller.Some? && !Owns(cfg.deployment, st.meta[sid].owner, caller.value) then Some(WrongOwner)
      else if Terminal(Hash(st.meta, sid).status) then Some(Finished)
      else if named.Some? && sid !in st.meta then Some(NotFound)
      else None
  }

  function UpdateCommit(st: Store, sid: Sid, ts: int): Store {
    st.(meta := st.meta[sid := Hash(st.meta, sid)], index := ZAdd(st.index, sid, ts))
  }

  // ---- complete_session, as one indivisible operation ----

  const TASK_RESULTS: set<string> := {"success", "partial", "failure"}

  datatype CompleteRequest = CompleteRequest(
    sid: Sid, agent: Label, auth: Auth, submitted: string, evidence: seq<string>, outcome: string)

  datatype CompleteReply = CompleteReply(grade: Option<string>, dropped: bool)

  datatype CompleteResult = Refused(why: Refusal) | Done(reply: CompleteReply)

  function CompleteRefusal(cfg: Config, m: Option<Meta>, req: CompleteRequest): Option<Refusal> {
    if m.None? then Some(NotFound)
    else if m.value.agent != "" && m.value.agent != req.agent then Some(WrongLabel)
    else if Refuses(cfg, m.value.owner, req.auth) then Some(WrongOwner)
    else None
  }

  // The grade on record that counts as authoritative.
  function StandingGrade(m: Meta): Option<string> {
    if m.owner.member != "" && m.grade in TASK_RESULTS && m.gradeSource == "self_reported"
    then Some(m.grade) else None
  }

  predicate WritesGrade(m: Meta, req: CompleteRequest) {
    m.owner.member != "" && req.submitted in TASK_RESULTS && StandingGrade(m).None?
  }

  // The HSET of a completion, onto the hash as it is.
  function CompletedMeta(hash: Meta, writesGrade: bool, req: CompleteRequest): Meta {
    var closed := hash.(status := Completed, outcome := req.outcome, distillation := Queued);
    if writesGrade
    then closed.(grade := req.submitted, gradeSource := "self_reported", evidence := req.evidence)
    else closed
  }

  function CompleteReplyOf(m: Meta, req: CompleteRequest): CompleteReply {
    CompleteReply(
      if WritesGrade(m, req) then Some(req.submitted) else StandingGrade(m),
      req.submitted in TASK_RESULTS && !WritesGrade(m, req))
  }

  function CompleteCommit(st: Store, req: CompleteRequest): Store
    requires req.sid in st.meta
  {
    var m := st.meta[req.sid];
    st.(pointer := DropPointers(st.pointer, {m.agent, req.agent}, req.sid),
        meta := st.meta[req.sid := CompletedMeta(m, WritesGrade(m, req), req)])
  }

  // ---- the worker's and the server's own writes ----

  function SetDistillation(st: Store, sid: Sid, d: Distillation): Store {
    st.(meta := st.meta[sid := Hash(st.meta, sid).(distillation := d)])
  }

  function SetExpiry(st: Store, sid: Sid): Store {
    if sid in st.meta then st.(meta := st.meta[sid := st.meta[sid].(expiring := true)]) else st
  }

  function Expire(st: Store, sid: Sid): Store {
    if sid in st.meta && st.meta[sid].expiring then st.(meta := st.meta - {sid}) else st
  }
}
