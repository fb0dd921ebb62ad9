/** What one pass over the queue, and one requeue of a dead letter, come to. */
module DistillPasses {
  import opened Wrappers
  import opened Principal
  import opened SessionStore
  import opened Protocol
  import opened DistillWorkers
  import opened JobLineage

  // What the first to the ninth failed attempt wait, in seconds; the cap of an
  // hour lies beyond the tenth.
  const DELAYS: seq<int> := [10, 20, 40, 80, 160, 320, 640, 1280, 2560]

  lemma BackoffIs(attempts: nat)
    requires 1 <= attempts <= 9
    ensures Backoff(attempts) == DELAYS[attempts - 1]
  {
    assert Pow2(3) == 8 && Pow2(6) == 8 * Pow2(3) && Pow2(9) == 8 * Pow2(6);
    assert Pow2(1) == 2 && Pow2(2) == 4 && Pow2(4) == 2 * Pow2(3) && Pow2(5) == 4 * Pow2(3);
    assert Pow2(7) == 2 * Pow2(6) && Pow2(8) == 4 * Pow2(6);
  }

  // What comes of an entry: its session is gone, it is distilled, it is given up
  // for good, or it is tried again.
  datatype Verdict = Void | Success | Buried | Again

  function VerdictOn(known: set<Sid>, entry: Entry, distilled: Distilled): Verdict {
    if entry.sid == "" || entry.sid !in known then Void
    else if distilled == Learned then Success
    else if distilled.permanent || entry.attempts >= 9 then Buried
    else Again
  }

  function NextTry(entry: Entry, now: int): Entry
    requires entry.attempts < 9
  {
    Entry(entry.sid, entry.attempts + 1, now + DELAYS[entry.attempts])
  }

  // One due entry: it leaves the queue, and by the verdict on it its session is
  // marked and set to expire, a letter is kept, or one retry is enqueued.
  lemma ProcessOneMeans(p: Pass, k: nat, distilled: Distilled, now: int)
    requires StreamOk(p.stream, p.nextId) && k < |p.stream|
    ensures var entry, after := p.stream[k].entry, ProcessOne(p, p.stream[k], distilled, now);
            var verdict, others := VerdictOn(p.store.meta.Keys, entry, distilled), p.stream[..k] + p.stream[k + 1..];
            && after.stream == others + (if verdict == Again then [Job(p.nextId, NextTry(entry, now))] else [])
            && after.nextId == p.nextId + (if verdict == Again then 1 else 0)
            && after.dlq == (if verdict == Buried then [Letter(entry.sid, entry.attempts + 1)] else []) + p.dlq
            && after.store.pointer == p.store.pointer && after.store.index == p.store.index
            && after.store.meta ==
               if verdict in {Void, Again} then p.store.meta
               else p.store.meta[entry.sid := p.store.meta[entry.sid].(
                      distillation := if verdict == Success then Succeeded else DeadLettered, expiring := true)]
  {
    hide Backoff;
    var job := p.stream[k];
    WithoutOne(p.stream, k);
    assert [] + p.dlq == p.dlq && (p.stream[..k] + p.stream[k + 1..]) + [] == p.stream[..k] + p.stream[k + 1..];
    if VerdictOn(p.store.meta.Keys, job.entry, distilled) == Again {
      var longer := p.stream + [Job(p.nextId, Retry(job.entry, now))];
      WithoutOne(longer, k);
      BackoffIs(job.entry.attempts + 1);
      assert longer[k + 1..] == p.stream[k + 1..] + [Job(p.nextId, Retry(job.entry, now))];
    }
    hide Without;
  }

  // ---- a whole pass ----

  // The fetched entries whose time has not come.
  function Waiting(jobs: seq<Job>, now: int): seq<Job> {
    if jobs == [] then []
    else Waiting(jobs[..|jobs| - 1], now) + if jobs[|jobs| - 1].entry.due > now then [jobs[|jobs| - 1]] else []
  }

  predicate Meets(known: set<Sid>, jobs: seq<Job>, results: seq<Distilled>, now: int, i: int, verdict: Verdict)
    requires |jobs| <= |results|
  {
    0 <= i < |jobs| && jobs[i].entry.due <= now && VerdictOn(known, jobs[i].entry, results[i]) == verdict
  }

  // The retries of the due entries, in their order.
  function Retries(known: set<Sid>, jobs: seq<Job>, results: seq<Distilled>, now: int, nextId: nat): seq<Job>
    requires |jobs| <= |results|
  {
    if jobs == [] then []
    else
      var n := |jobs| - 1;
      var earlier := Retries(known, jobs[..n], results, now, nextId);
      earlier + if Meets(known, jobs, results, now, n, Again)
                then [Job(nextId + |earlier|, NextTry(jobs[n].entry, now))] else []
  }

  // The letters for the entries given up, latest first.
  function Letters(known: set<Sid>, jobs: seq<Job>, results: seq<Distilled>, now: int): seq<Letter>
    requires |jobs| <= |results|
  {
    if jobs == [] then []
    else
      var n := |jobs| - 1;
      (if Meets(known, jobs, results, now, n, Buried) then [Letter(jobs[n].entry.sid, jobs[n].entry.attempts + 1)]
       else [])
      + Letters(known, jobs[..n], results, now)
  }

  // A due entry settles its session: done or buried.
  predicate Settles(known: set<Sid>, jobs: seq<Job>, results: seq<Distilled>, now: int, i: int, s: Sid)
    requires |jobs| <= |results|
  {
    && (Meets(known, jobs, results, now, i, Success) || Meets(known, jobs, results, now, i, Buried))
    && jobs[i].entry.sid == s
  }

  // The last due entry to settle a session, or -1.
  function LastSettling(known: set<Sid>, jobs: seq<Job>, results: seq<Distilled>, now: int, s: Sid): (i: int)
    requires |jobs| <= |results|
    ensures -1 <= i < |jobs|
  {
    if jobs == [] then -1
    else if Settles(known, jobs, results, now, |jobs| - 1, s) then |jobs| - 1
    else LastSettling(known, jobs[..|jobs| - 1], results, now, s)
  }

  // Queue and letters after a pass: the due entries it fetched are gone, those not
  // due and those behind them are where they were, the retries come last.
  lemma {:induction false} PassMeans(p: Pass, jobs: seq<Job>, results: seq<Distilled>, now: int)
    requires StreamOk(p.stream, p.nextId) && |results| >= |jobs| && jobs <= p.stream
    ensures var after, known := ProcessAll(p, jobs, results, now), p.store.meta.Keys;
            var retries := Retries(known, jobs, results, now, p.nextId);
            && after.stream == Waiting(jobs, now) + p.stream[|jobs|..] + retries
            && after.nextId == p.nextId + |retries|
            && after.dlq == Letters(known, jobs, results, now) + p.dlq
            && after.store.meta.Keys == known
            && after.store.pointer == p.store.pointer && after.store.index == p.store.index
    ensures StreamOk(ProcessAll(p, jobs, results, now).stream, ProcessAll(p, jobs, results, now).nextId)
  {
    hide StreamOk, ProcessOne;
    if jobs == [] {
      assert [] + p.stream[0..] + [] == p.stream && [] + p.dlq == p.dlq;
    } else {
      var n := |jobs| - 1;
      var at := ProcessAll(p, jobs[..n], results, now);
      PassMeans(p, jobs[..n], results, now);
      PassStep(p, at, jobs, results, now);
      PassIsTurns(p, jobs, results, now, jobs[n]);
    }
  }

  lemma PassStep(p: Pass, at: Pass, jobs: seq<Job>, results: seq<Distilled>, now: int)
    requires jobs != [] && |results| >= |jobs| && jobs <= p.stream && StreamOk(at.stream, at.nextId)
    requires at.store.meta.Keys == p.store.meta.Keys
    requires var most := jobs[..|jobs| - 1];
             var retries := Retries(p.store.meta.Keys, most, results, now, p.nextId);
             && at.stream == Waiting(most, now) + p.stream[|most|..] + retries
             && at.nextId == p.nextId + |retries|
             && at.dlq == Letters(p.store.meta.Keys, most, results, now) + p.dlq
    ensures var n, known := |jobs| - 1, p.store.meta.Keys;
            var after := if jobs[n].entry.due > now then at else ProcessOne(at, jobs[n], results[n], now);
            var retries := Retries(known, jobs, results, now, p.nextId);
            && after.stream == Waiting(jobs, now) + p.stream[|jobs|..] + retries
            && after.nextId == p.nextId + |retries|
            && after.dlq == Letters(known, jobs, results, now) + p.dlq
            && after.store.meta.Keys == known
            && after.store.pointer == at.store.pointer && after.store.index == at.store.index
  {
    hide StreamOk, ProcessOne, NextTry, VerdictOn;
    var n, known := |jobs| - 1, p.store.meta.Keys;
    var ahead, behind := Waiting(jobs[..n], now), p.stream[n + 1..];
    var retries := Retries(known, jobs[..n], results, now, p.nextId);
    assert p.stream[n..] == [jobs[n]] + behind;
    if jobs[n].entry.due <= now {
      OneStep(at, ahead, jobs[n], behind, retries, results[n], now);
      WaitingSnoc(jobs, now);
      RetriesSnoc(known, jobs, results, now, p.nextId);
      LettersSnoc(known, jobs, results, now, p.dlq);
      hide Waiting, Retries, Letters;
    } else {
      WaitingSnoc(jobs, now);
      assert ahead + ([jobs[n]] + behind) + retries == (ahead + [jobs[n]]) + behind + retries;
      assert retries + [] == retries;
    }
  }

  lemma OneStep(
    at: Pass, ahead: seq<Job>, job: Job, behind: seq<Job>, retries: seq<Job>, distilled: Distilled, now: int)
    requires StreamOk(at.stream, at.nextId) && at.stream == ahead + ([job] + behind) + retries
    ensures var after, known := ProcessOne(at, job, distilled, now), at.store.meta.Keys;
            var again := VerdictOn(known, job.entry, distilled) == Again;
            && after.stream == ahead + behind
                               + (retries + if again then [Job(at.nextId, NextTry(job.entry, now))] else [])
            && after.nextId == at.nextId + (if again then 1 else 0)
            && after.dlq == (if VerdictOn(known, job.entry, distilled) == Buried
                             then [Letter(job.entry.sid, job.entry.attempts + 1)] else []) + at.dlq
            && after.store.meta.Keys == known
            && after.store.pointer == at.store.pointer && after.store.index == at.store.index
  {
    hide StreamOk, ProcessOne, NextTry;
    JobIsAt(at.stream, ahead, job, behind, retries);
    ProcessOneMeans(at, |ahead|, distilled, now);
    var again := if VerdictOn(at.store.meta.Keys, job.entry, distilled) == Again
                 then [Job(at.nextId, NextTry(job.entry, now))] else [];
    assert ahead + (behind + retries) + again == ahead + behind + (retries + again);
  }

  lemma JobIsAt(stream: seq<Job>, ahead: seq<Job>, job: Job, behind: seq<Job>, retries: seq<Job>)
    requires stream == ahead + ([job] + behind) + retries
    ensures |ahead| < |stream| && stream[|ahead|] == job
    ensures stream[..|ahead|] + stream[|ahead| + 1..] == ahead + (behind + retries)
  {
    assert stream[..|ahead|] == ahead && stream[|ahead| + 1..] == behind + retries;
  }

  lemma WaitingSnoc(jobs: seq<Job>, now: int)
    requires jobs != []
    ensures var n := |jobs| - 1;
            Waiting(jobs, now) == if jobs[n].entry.due > now then Waiting(jobs[..n], now) + [jobs[n]]
                                  else Waiting(jobs[..n], now)
  {
    assert Waiting(jobs[..|jobs| - 1], now) + [] == Waiting(jobs[..|jobs| - 1], now);
  }

  lemma RetriesSnoc(known: set<Sid>, jobs: seq<Job>, results: seq<Distilled>, now: int, nextId: nat)
    requires jobs != [] && |results| >= |jobs| && jobs[|jobs| - 1].entry.due <= now
    ensures var n := |jobs| - 1;
            var earlier := Retries(known, jobs[..n], results, now, nextId);
            Retries(known, jobs, results, now, nextId)
            == earlier + if VerdictOn(known, jobs[n].entry, results[n]) == Again
                         then [Job(nextId + |earlier|, NextTry(jobs[n].entry, now))] else []
  {
  }

  lemma LettersSnoc(known: set<Sid>, jobs: seq<Job>, results: seq<Distilled>, now: int, dlq: seq<Letter>)
    requires jobs != [] && |results| >= |jobs| && jobs[|jobs| - 1].entry.due <= now
    ensures var n := |jobs| - 1;
            var letter := if VerdictOn(known, jobs[n].entry, results[n]) == Buried
                          then [Letter(jobs[n].entry.sid, jobs[n].entry.attempts + 1)] else [];
            Letters(known, jobs, results, now) + dlq == letter + (Letters(known, jobs[..n], results, now) + dlq)
  {
    hide VerdictOn;
  }

  // Sessions after a pass: the last due entry to settle one decides how; one that
  // none settles is as it was.
  lemma {:induction false} PassSettles(p: Pass, jobs: seq<Job>, results: seq<Distilled>, now: int, s: Sid)
    requires StreamOk(p.stream, p.nextId) && |results| >= |jobs| && jobs <= p.stream && s in p.store.meta
    ensures var after := ProcessAll(p, jobs, results, now);
            var last := LastSettling(p.store.meta.Keys, jobs, results, now, s);
            && s in after.store.meta
            && after.store.meta[s] ==
               if last < 0 then p.store.meta[s]
               else p.store.meta[s].(
                 distillation := if results[last] == Learned then Succeeded else DeadLettered, expiring := true)
  {
    hide StreamOk, ProcessOne, Settles;
    if jobs != [] {
      var n, known := |jobs| - 1, p.store.meta.Keys;
      PassSettles(p, jobs[..n], results, now, s);
      PassMeans(p, jobs[..n], results, now);
      FetchedIsThere(p, jobs, results, now);
      var at := ProcessAll(p, jobs[..n], results, now);
      var k :| 0 <= k < |at.stream| && at.stream[k] == jobs[n];
      OneSettles(at, k, jobs, results, now, s);
    }
  }

  lemma OneSettles(at: Pass, k: nat, jobs: seq<Job>, results: seq<Distilled>, now: int, s: Sid)
    requires StreamOk(at.stream, at.nextId) && k < |at.stream| && s in at.store.meta
    requires jobs != [] && |results| >= |jobs| && at.stream[k] == jobs[|jobs| - 1]
    ensures var n := |jobs| - 1;
            var after := if jobs[n].entry.due > now then at else ProcessOne(at, jobs[n], results[n], now);
            && s in after.store.meta
            && after.store.meta[s] ==
               if Settles(at.store.meta.Keys, jobs, results, now, n, s) then at.store.meta[s].(
                 distillation := if results[n] == Learned then Succeeded else DeadLettered, expiring := true)
               else at.store.meta[s]
  {
    hide StreamOk, ProcessOne;
    ProcessOneMeans(at, k, results[|jobs| - 1], now);
  }

  lemma FetchedIsThere(p: Pass, jobs: seq<Job>, results: seq<Distilled>, now: int)
    requires StreamOk(p.stream, p.nextId) && |results| >= |jobs| && jobs != [] && jobs <= p.stream
    ensures jobs[|jobs| - 1] in ProcessAll(p, jobs[..|jobs| - 1], results, now).stream
  {
    hide StreamOk;
    var n := |jobs| - 1;
    PassIsTurns(p, jobs[..n], results, now, jobs[n]);
    OnceInStream(p.stream, p.nextId, n);
    assert jobs[..n] == p.stream[..n];
  }

  // The due entries among them that are distilled.
  function Distillable(known: set<Sid>, jobs: seq<Job>, results: seq<Distilled>, now: int): set<int>
    requires |jobs| <= |results|
  {
    set i | 0 <= i < |jobs| && Meets(known, jobs, results, now, i, Success)
  }

  // The number a pass reports is theirs.
  lemma {:induction false} SuccessesCount(p: Pass, jobs: seq<Job>, results: seq<Distilled>, now: int)
    requires StreamOk(p.stream, p.nextId) && |results| >= |jobs| && jobs <= p.stream
    ensures Successes(p, jobs, results, now) == |Distillable(p.store.meta.Keys, jobs, results, now)|
  {
    hide StreamOk, ProcessAll, Distillable;
    var known := p.store.meta.Keys;
    DistillableGrows(known, jobs, results, now);
    if jobs != [] {
      var n := |jobs| - 1;
      SuccessesCount(p, jobs[..n], results, now);
      PassMeans(p, jobs[..n], results, now);
    }
  }

  lemma DistillableGrows(known: set<Sid>, jobs: seq<Job>, results: seq<Distilled>, now: int)
    requires |results| >= |jobs|
    ensures jobs == [] ==> Distillable(known, jobs, results, now) == {}
    ensures jobs != [] ==>
      var n := |jobs| - 1;
      |Distillable(known, jobs, results, now)|
      == |Distillable(known, jobs[..n], results, now)| + if Meets(known, jobs, results, now, n, Success) then 1 else 0
  {
    hide VerdictOn;
    if jobs != [] {
      var n := |jobs| - 1;
      var added := if Meets(known, jobs, results, now, n, Success) then {n} else {};
      assert Distillable(known, jobs, results, now) == Distillable(known, jobs[..n], results, now) + added;
    }
  }

  // ---- one dead letter ----

  // A record is pushed back if it names no session or a call for it failed; it is
  // dropped, without a trace, if its session is gone; and otherwise it becomes a
  // fresh entry due now, its session marked queued if that write succeeds.
  lemma FateMeans(p: Pass, letter: Letter, fault: Faults, now: int, c: Counts)
    ensures var known := letter.sid in p.store.meta;
            var fate := FateOf(letter, known, fault);
            var after, kept := ForwardOne(p, letter, fate, now), Kept(letter, fate);
            var counted := Counted(c, fate);
            if letter.sid == "" then
              && after == p && kept == (if fault.restore then [] else [letter])
              && counted == if fault.restore then c.(failed := c.failed + 1) else c.(malformed := c.malformed + 1)
            else if fault.lookup || (known && fault.enqueue) then
              && after == p && kept == (if fault.restore then [] else [letter])
              && counted == c.(failed := c.failed + 1)
            else if !known then
              after == p && kept == [] && counted == c.(expired := c.expired + 1)
            else
              && kept == [] && counted == c.(requeued := c.requeued + 1)
              && after.stream == p.stream + [Job(p.nextId, Entry(letter.sid, 0, now))]
              && after.nextId == p.nextId + 1 && after.dlq == p.dlq
              && after.store == if fault.status then p.store
                                else p.store.(meta := p.store.meta[letter.sid :=
                                       p.store.meta[letter.sid].(distillation := Queued)])
  {
  }

  // The entries the re-enqueued records become, in the order they were popped.
  function Renewed(popped: seq<Letter>, fates: seq<Fate>, nextId: nat, now: int): seq<Job>
    requires |popped| == |fates|
  {
    if popped == [] then []
    else
      var n := |popped| - 1;
      var earlier := Renewed(popped[..n], fates[..n], nextId, now);
      earlier + if fates[n] == Requeued || fates[n] == Unmarked
                then [Job(nextId + |earlier|, Entry(popped[n].sid, 0, now))] else []
  }

  // The sessions marked.
  function Revived(popped: seq<Letter>, fates: seq<Fate>): set<Sid>
    requires |popped| == |fates|
  {
    set i | 0 <= i < |popped| && fates[i] == Requeued :: popped[i].sid
  }

  lemma RevivedGrows(popped: seq<Letter>, fates: seq<Fate>)
    requires |popped| == |fates| && popped != []
    ensures var n := |popped| - 1;
            Revived(popped, fates)
            == Revived(popped[..n], fates[..n]) + if fates[n] == Requeued then {popped[n].sid} else {}
  {
  }

  // What a requeue writes beside the dead letters: those entries, and the status
  // of the sessions it requeued.
  lemma {:induction false} ForwardMeans(p: Pass, popped: seq<Letter>, fates: seq<Fate>, now: int)
    requires |popped| == |fates|
    requires forall i :: 0 <= i < |popped| && fates[i] == Requeued ==> popped[i].sid in p.store.meta
    ensures var after, renewed := Forward(p, popped, fates, now), Renewed(popped, fates, p.nextId, now);
            && after.stream == p.stream + renewed && after.nextId == p.nextId + |renewed| && after.dlq == p.dlq
            && after.store.pointer == p.store.pointer && after.store.index == p.store.index
            && after.store.meta.Keys == p.store.meta.Keys
            && forall s :: s in p.store.meta ==>
                 after.store.meta[s] == if s in Revived(popped, fates)
                                        then p.store.meta[s].(distillation := Queued) else p.store.meta[s]
  {
    if popped != [] {
      var n := |popped| - 1;
      ForwardMeans(p, popped[..n], fates[..n], now);
      RevivedGrows(popped, fates);
      hide Revived;
    }
  }
}
