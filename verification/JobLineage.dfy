/** One job through the queue: its entry, the entry its retry leaves, and so on,
    among any number of other jobs' entries. */
module JobLineage {
  import opened Wrappers
  import opened Principal
  import opened SessionStore
  import opened Protocol
  import opened DistillWorkers

  // The worker processes an entry of the stream, or somebody enqueues another.
  datatype Turn =
    | Process(job: Job, distilled: Distilled, now: int)
    | Arrive(entry: Entry)

  function Turned(p: Pass, turn: Turn): Pass {
    match turn
    case Process(job, distilled, now) => if job in p.stream then ProcessOne(p, job, distilled, now) else p
    case Arrive(entry) =>
      if entry.attempts < MAX_ATTEMPTS
      then p.(stream := p.stream + [Job(p.nextId, entry)], nextId := p.nextId + 1) else p
  }

  function Worked(p: Pass, turns: seq<Turn>): Pass {
    if turns == [] then p else Turned(Worked(p, turns[..|turns| - 1]), turns[|turns| - 1])
  }

  // The entry under this id, wherever it is in the stream.
  function EntryUnder(stream: seq<Job>, id: nat): Option<Entry> {
    if stream == [] then None
    else if stream[0].id == id then Some(stream[0].entry)
    else EntryUnder(stream[1..], id)
  }

  // A job's present entry, if it has one left, how often it was tried, and the
  // delays its retries were scheduled with.
  datatype Lineage = Lineage(present: Option<nat>, tries: nat, delay: int)

  // A turn at the job's present entry is a try; an entry the turn adds is its retry.
  function Continued(at: Pass, turn: Turn, line: Lineage): Lineage {
    if turn.Process? && turn.job in at.stream && line.present == Some(turn.job.id) then
      var retry := EntryUnder(Turned(at, turn).stream, at.nextId);
      if retry.Some? then Lineage(Some(at.nextId), line.tries + 1, line.delay + retry.value.due - turn.now)
      else Lineage(None, line.tries + 1, line.delay)
    else line
  }

  function Traced(p: Pass, turns: seq<Turn>, id: nat): Lineage {
    if turns == [] then Lineage(Some(id), 0, 0)
    else
      var before := turns[..|turns| - 1];
      Continued(Worked(p, before), turns[|turns| - 1], Traced(p, before, id))
  }

  // ---- the stream stays well formed ----

  lemma {:induction false} EntryUnderIs(stream: seq<Job>, k: nat)
    requires k < |stream| && forall i, j :: 0 <= i < j < |stream| ==> stream[i].id != stream[j].id
    ensures EntryUnder(stream, stream[k].id) == Some(stream[k].entry)
  {
    if k > 0 {
      EntryUnderIs(stream[1..], k - 1);
    }
  }

  lemma {:induction false} EntryUnderNone(stream: seq<Job>, id: nat)
    requires forall i :: 0 <= i < |stream| ==> stream[i].id != id
    ensures EntryUnder(stream, id).None?
  {
    if stream != [] {
      EntryUnderNone(stream[1..], id);
    }
  }

  lemma {:induction false} WithoutUnder(stream: seq<Job>, gone: nat, id: nat)
    ensures EntryUnder(Without(stream, gone), id) == if id == gone then None else EntryUnder(stream, id)
  {
    if stream != [] {
      WithoutUnder(stream[1..], gone, id);
      assert ([stream[0]] + Without(stream[1..], gone))[1..] == Without(stream[1..], gone);
      assert [] + Without(stream[1..], gone) == Without(stream[1..], gone);
    }
  }

  lemma {:induction false} AppendUnder(stream: seq<Job>, job: Job, id: nat)
    ensures EntryUnder(stream + [job], id)
         == if EntryUnder(stream, id).Some? then EntryUnder(stream, id)
            else if job.id == id then Some(job.entry) else None
  {
    if stream != [] {
      AppendUnder(stream[1..], job, id);
      assert (stream + [job])[1..] == stream[1..] + [job];
    }
  }

  lemma TurnKeepsOk(p: Pass, turn: Turn)
    requires StreamOk(p.stream, p.nextId)
    ensures StreamOk(Turned(p, turn).stream, Turned(p, turn).nextId)
  {
    if turn.Process? && turn.job in p.stream {
      var k :| 0 <= k < |p.stream| && p.stream[k] == turn.job;
      ProcessingSpendsBudget(p, k, turn.distilled, turn.now);
      hide ProcessOne, StreamOk;
    }
  }

  // What a turn does to the entry under an id.
  lemma TurnUnder(p: Pass, turn: Turn, id: nat)
    requires StreamOk(p.stream, p.nextId) && id < p.nextId
    requires !(turn.Process? && turn.job in p.stream && turn.job.id == id)
    ensures EntryUnder(Turned(p, turn).stream, id) == EntryUnder(p.stream, id)
    ensures p.nextId <= Turned(p, turn).nextId
  {
    hide EntryUnder, Without, StreamOk;
    match turn
    case Arrive(entry) => AppendUnder(p.stream, Job(p.nextId, entry), id);
    case Process(job, distilled, now) =>
      if job in p.stream {
        var retry := Job(p.nextId, Retry(job.entry, now));
        WithoutUnder(p.stream, job.id, id);
        WithoutUnder(p.stream + [retry], job.id, id);
        AppendUnder(p.stream, retry, id);
      }
  }

  // A try leaves one retry, with one more attempt behind it and scheduled by the
  // backoff, exactly if the session is there, the failure is not permanent, and
  // the try was not the tenth; otherwise it ends the job.
  lemma TryUnder(p: Pass, job: Job, distilled: Distilled, now: int)
    requires StreamOk(p.stream, p.nextId) && job in p.stream
    ensures var after := Turned(p, Process(job, distilled, now));
            var retry := EntryUnder(after.stream, p.nextId);
            && (retry.Some? ==>
              && after.nextId == p.nextId + 1 && retry.value.attempts < MAX_ATTEMPTS
              && retry == Some(Entry(job.entry.sid, job.entry.attempts + 1, now + Backoff(job.entry.attempts + 1))))
            && (retry.Some? <==>
              && job.entry.sid != "" && job.entry.sid in p.store.meta
              && distilled.Failed? && !distilled.permanent && job.entry.attempts + 1 < 10)
  {
    NewIdIsFree(p, job);
    hide EntryUnder, Without, StreamOk;
    var retry := Job(p.nextId, Retry(job.entry, now));
    WithoutUnder(p.stream, job.id, p.nextId);
    WithoutUnder(p.stream + [retry], job.id, p.nextId);
    AppendUnder(p.stream, retry, p.nextId);
  }

  lemma NewIdIsFree(p: Pass, job: Job)
    requires StreamOk(p.stream, p.nextId) && job in p.stream
    ensures EntryUnder(p.stream, p.nextId).None? && job.id < p.nextId
    ensures EntryUnder(p.stream, job.id) == Some(job.entry)
  {
    EntryUnderNone(p.stream, p.nextId);
    var k :| 0 <= k < |p.stream| && p.stream[k] == job;
    EntryUnderIs(p.stream, k);
  }

  // ---- the life of one job ----

  // The job's entry counts its tries, and its delays are the backoffs so far.
  ghost predicate InStep(at: Pass, line: Lineage) {
    && StreamOk(at.stream, at.nextId)
    && match line.present
       case Some(id) =>
         && id < at.nextId && line.tries < MAX_ATTEMPTS && line.delay == Scheduled(line.tries)
         && EntryUnder(at.stream, id).Some? && EntryUnder(at.stream, id).value.attempts == line.tries
       case None =>
         1 <= line.tries <= MAX_ATTEMPTS && line.delay == Scheduled(line.tries - 1)
  }

  lemma TurnStaysInStep(at: Pass, turn: Turn, line: Lineage)
    requires InStep(at, line)
    ensures InStep(Turned(at, turn), Continued(at, turn, line))
  {
    hide EntryUnder, StreamOk, Turned, Backoff;
    TurnKeepsOk(at, turn);
    if turn.Process? && turn.job in at.stream && line.present == Some(turn.job.id) {
      NewIdIsFree(at, turn.job);
      TryUnder(at, turn.job, turn.distilled, turn.now);
    } else if line.present.Some? {
      TurnUnder(at, turn, line.present.value);
    }
  }

  lemma {:induction false} LineageStaysInStep(p: Pass, turns: seq<Turn>, id: nat)
    requires InStep(p, Lineage(Some(id), 0, 0))
    ensures InStep(Worked(p, turns), Traced(p, turns, id))
  {
    hide InStep, Turned, Continued;
    if turns != [] {
      var before := turns[..|turns| - 1];
      LineageStaysInStep(p, before, id);
      TurnStaysInStep(Worked(p, before), turns[|turns| - 1], Traced(p, before, id));
    }
  }

  // However the worker's turns and other jobs' entries interleave, a fresh job is
  // tried at most ten times, and its retries are scheduled with at most 5110
  // seconds of delay in all; once it has been tried ten times no entry is left.
  lemma TenTriesAtMost(p: Pass, turns: seq<Turn>, job: Job)
    requires StreamOk(p.stream, p.nextId) && job in p.stream && job.entry.attempts == 0
    ensures var line := Traced(p, turns, job.id);
            && line.tries <= MAX_ATTEMPTS && 0 <= line.delay <= 5110
            && (line.tries == MAX_ATTEMPTS ==> line.present.None?)
            && (line.present.Some? ==>
              EntryUnder(Worked(p, turns).stream, line.present.value).Some?
              && EntryUnder(Worked(p, turns).stream, line.present.value).value.attempts == line.tries)
  {
    hide EntryUnder, StreamOk, Worked, Traced, Backoff;
    StartsInStep(p, job);
    LineageStaysInStep(p, turns, job.id);
    var line := Traced(p, turns, job.id);
    hide Scheduled;
    ScheduledDelays(if line.present.Some? then line.tries else line.tries - 1);
  }

  // And it is given up for nothing less: where it has no entry left, the last try
  // found its session gone, distilled it, failed for good, or was the tenth.
  lemma {:induction false} JobEndsWhy(p: Pass, turns: seq<Turn>, job: Job) returns (k: nat)
    requires StreamOk(p.stream, p.nextId) && job in p.stream && job.entry.attempts == 0
    requires Traced(p, turns, job.id).present.None?
    ensures k < |turns| && turns[k].Process?
    ensures var at, line, tried := Worked(p, turns[..k]), Traced(p, turns[..k], job.id), turns[k].job;
            && tried in at.stream && line.present == Some(tried.id)
            && Traced(p, turns, job.id).tries == line.tries + 1
            && (tried.entry.sid == "" || tried.entry.sid !in at.store.meta || turns[k].distilled.Learned?
                || turns[k].distilled.permanent || line.tries == 9)
  {
    hide EntryUnder, StreamOk, Worked, Turned, Backoff, Scheduled;
    var n := |turns| - 1;
    var at, line := Worked(p, turns[..n]), Traced(p, turns[..n], job.id);
    if line.present.None? {
      k := JobEndsWhy(p, turns[..n], job);
      assert turns[..n][..k] == turns[..k];
    } else {
      k := n;
      StartsInStep(p, job);
      LineageStaysInStep(p, turns[..n], job.id);
      NewIdIsFree(at, turns[n].job);
      TryUnder(at, turns[n].job, turns[n].distilled, turns[n].now);
    }
  }

  lemma StartsInStep(p: Pass, job: Job)
    requires StreamOk(p.stream, p.nextId) && job in p.stream && job.entry.attempts == 0
    ensures InStep(p, Lineage(Some(job.id), 0, 0))
  {
    hide EntryUnder, StreamOk, Backoff;
    NewIdIsFree(p, job);
    assert Scheduled(0) == 0;
  }

  // ---- a pass is a sequence of turns ----

  function TurnsOf(jobs: seq<Job>, results: seq<Distilled>, now: int): seq<Turn>
    requires |results| >= |jobs|
  {
    if jobs == [] then []
    else
      var n := |jobs| - 1;
      TurnsOf(jobs[..n], results, now) + if jobs[n].entry.due > now then [] else [Process(jobs[n], results[n], now)]
  }

  // Every entry a pass fetched is still there when its turn comes.
  lemma {:induction false} PassIsTurns(p: Pass, jobs: seq<Job>, results: seq<Distilled>, now: int, job: Job)
    requires StreamOk(p.stream, p.nextId) && |results| >= |jobs| && jobs <= p.stream
    ensures ProcessAll(p, jobs, results, now) == Worked(p, TurnsOf(jobs, results, now))
    ensures StreamOk(ProcessAll(p, jobs, results, now).stream, ProcessAll(p, jobs, results, now).nextId)
    ensures job in p.stream && job !in jobs ==> job in ProcessAll(p, jobs, results, now).stream
  {
    hide StreamOk, ProcessOne;
    if jobs != [] {
      var n := |jobs| - 1;
      var turns := TurnsOf(jobs[..n], results, now);
      var at := ProcessAll(p, jobs[..n], results, now);
      PassIsTurns(p, jobs[..n], results, now, job);
      PassIsTurns(p, jobs[..n], results, now, jobs[n]);
      OnceInStream(p.stream, p.nextId, n);
      assert jobs[..n] == p.stream[..n] && jobs[n] == p.stream[n];
      assert jobs[n] in at.stream;
      if jobs[n].entry.due <= now {
        var turn := Process(jobs[n], results[n], now);
        assert (turns + [turn])[..|turns|] == turns;
        TurnKeepsOk(at, turn);
        if job in p.stream && job !in jobs {
          DistinctIds(p.stream, p.nextId, job, jobs[n]);
          OthersStay(at, turn, job);
        }
      } else {
        assert turns + [] == turns;
      }
    }
  }

  lemma OnceInStream(stream: seq<Job>, nextId: nat, n: nat)
    requires StreamOk(stream, nextId) && n < |stream|
    ensures stream[n] !in stream[..n]
  {
  }

  lemma DistinctIds(stream: seq<Job>, nextId: nat, a: Job, b: Job)
    requires StreamOk(stream, nextId) && a in stream && b in stream && a != b
    ensures a.id != b.id
  {
  }

  lemma {:induction false} WithoutKeeps(stream: seq<Job>, gone: nat, job: Job)
    requires job in stream && job.id != gone
    ensures job in Without(stream, gone)
  {
    if stream[0] != job {
      WithoutKeeps(stream[1..], gone, job);
    }
  }

  lemma OthersStay(p: Pass, turn: Turn, job: Job)
    requires turn.Process? && turn.job in p.stream && job in p.stream && job.id != turn.job.id
    ensures job in Turned(p, turn).stream
  {
    hide Without;
    WithoutKeeps(p.stream, turn.job.id, job);
    WithoutKeeps(p.stream + [Job(p.nextId, Retry(turn.job.entry, turn.now))], turn.job.id, job);
  }
}
