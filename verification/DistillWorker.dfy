/** bridge/app/distill_worker.py: one pass over the queue, the retry rules, and
    the manual requeue of dead letters. */
module DistillWorkers {
  import opened Wrappers
  import opened Principal
  import opened SessionStore
  import opened Protocol

  const BATCH := 100

  // The queue stream, oldest entry first, and what a pass writes beside it.
  datatype Pass = Pass(store: Store, stream: seq<Job>, nextId: nat, dlq: seq<Letter>)

  function Without(stream: seq<Job>, id: nat): seq<Job> {
    if stream == [] then []
    else (if stream[0].id == id then [] else [stream[0]]) + Without(stream[1..], id)
  }

  // One due entry, from its lookup to its XDEL.
  function ProcessOne(p: Pass, job: Job, distilled: Distilled, now: int): Pass {
    var e := job.entry;
    var rest := p.(stream := Without(p.stream, job.id));
    if e.sid == "" || e.sid !in p.store.meta then rest
    else if distilled.Learned? then
      rest.(store := SetExpiry(SetDistillation(p.store, e.sid, Succeeded), e.sid))
    else if e.attempts + 1 >= MAX_ATTEMPTS || distilled.permanent then
      rest.(store := SetExpiry(SetDistillation(p.store, e.sid, DeadLettered), e.sid),
            dlq := [Letter(e.sid, e.attempts + 1)] + p.dlq)
    else
      p.(stream := Without(p.stream + [Job(p.nextId, Retry(e, now))], job.id), nextId := p.nextId + 1)
  }

  function ProcessAll(p: Pass, jobs: seq<Job>, results: seq<Distilled>, now: int): Pass
    requires |results| >= |jobs|
  {
    if jobs == [] then p
    else
      var n := |jobs| - 1;
      var before := ProcessAll(p, jobs[..n], results, now);
      if jobs[n].entry.due > now then before else ProcessOne(before, jobs[n], results[n], now)
  }

  predicate Learns(p: Pass, job: Job, distilled: Distilled) {
    job.entry.sid != "" && job.entry.sid in p.store.meta && distilled.Learned?
  }

  // How many of the entries a pass distils.
  function Successes(p: Pass, jobs: seq<Job>, results: seq<Distilled>, now: int): nat
    requires |results| >= |jobs|
  {
    if jobs == [] then 0
    else
      var n := |jobs| - 1;
      Successes(p, jobs[..n], results, now)
      + if jobs[n].entry.due <= now && Learns(ProcessAll(p, jobs[..n], results, now), jobs[n], results[n]) then 1 else 0
  }

  class DistillWorker {
    var store: Store
    var stream: seq<Job>
    var nextId: nat
    var dlq: seq<Letter>

    function View(): Pass
      reads this
    {
      Pass(store, stream, nextId, dlq)
    }

    // One due entry of process_queue_once, command by command.
    method ProcessEntry(job: Job, distilled: Distilled, now: int) returns (learned: bool)
      modifies this
      ensures View() == ProcessOne(old(View()), job, distilled, now)
      ensures learned <==> Learns(old(View()), job, distilled)
    {
      var id, e := job.id, job.entry;
      learned := false;
      if e.sid == "" || e.sid !in store.meta {
        stream := Without(stream, id);
        return;
      }
      if distilled.Learned? {
        store := SetDistillation(store, e.sid, Succeeded);
        store := SetExpiry(store, e.sid);
        learned := true;
      } else {
        var attempts := e.attempts + 1;
        if attempts >= MAX_ATTEMPTS || distilled.permanent {
          dlq := [Letter(e.sid, attempts)] + dlq;
          store := SetDistillation(store, e.sid, DeadLettered);
          store := SetExpiry(store, e.sid);
        } else {
          stream := stream + [Job(nextId, Entry(e.sid, attempts, now + Backoff(attempts)))];
          nextId := nextId + 1;
        }
      }
      stream := Without(stream, id);
    }

    // process_queue_once; results holds the distiller's verdict on each entry
    // fetched, should it be asked for.
    method ProcessQueueOnce(results: seq<Distilled>, now: int) returns (succeeded: nat)
      requires |results| >= BATCH
      modifies this
      ensures var entries := old(stream)[..if |old(stream)| < 100 then |old(stream)| else 100];
              && View() == ProcessAll(old(View()), entries, results, now)
              && succeeded == Successes(old(View()), entries, results, now)
    {
      var entries := stream[..if |stream| < BATCH then |stream| else BATCH];
      ghost var start := View();
      succeeded := 0;
      for i := 0 to |entries|
        invariant View() == ProcessAll(start, entries[..i], results, now)
        invariant succeeded == Successes(start, entries[..i], results, now)
      {
        hide ProcessOne, Learns;
        assert entries[..i + 1][..i] == entries[..i];
        if entries[i].entry.due > now {
          continue;
        }
        var learned := ProcessEntry(entries[i], results[i], now);
        succeeded := succeeded + if learned then 1 else 0;
      }
      assert entries[..|entries|] == entries;
    }

    // requeue_dlq on the record it just popped.
    method RequeueRecord(letter: Letter, fault: Faults, now: int) returns (fate: Fate)
      modifies this
      ensures fate == FateOf(letter, letter.sid in old(store).meta, fault)
      ensures dlq == Kept(letter, fate) + old(dlq)
      ensures View().(dlq := []) == ForwardOne(old(View()).(dlq := []), letter, fate, now)
      ensures store.meta.Keys == old(store).meta.Keys
    {
      if letter.sid == "" {
        if fault.restore {
          return Lost;
        }
        dlq := [letter] + dlq;
        return Malformed;
      }
      if fault.lookup || (letter.sid in store.meta && fault.enqueue) {
        if fault.restore {
          return Lost;
        }
        dlq := [letter] + dlq;
        return Restored;
      }
      if letter.sid !in store.meta {
        return Expired;
      }
      stream := stream + [Job(nextId, Entry(letter.sid, 0, now))];
      nextId := nextId + 1;
      if fault.status {
        return Unmarked;
      }
      store := SetDistillation(store, letter.sid, Queued);
      return Requeued;
    }

    // The record popped after the worker's pushes, and what becomes of it.
    method RequeueNext(arriving: seq<Letter>, fault: Faults, now: int) returns (letter: Letter, fate: Fate)
      requires dlq != []
      modifies this
      ensures exists rest :: arriving + old(dlq) == rest + [letter] && dlq == Kept(letter, fate) + rest
      ensures fate == FateOf(letter, letter.sid in old(store).meta, fault)
      ensures View().(dlq := []) == ForwardOne(old(View()).(dlq := []), letter, fate, now)
      ensures store.meta.Keys == old(store).meta.Keys
    {
      dlq := arriving + dlq;
      var last := |dlq| - 1;
      letter := dlq[last];
      assert dlq == dlq[..last] + [letter];
      dlq := dlq[..last];
      fate := RequeueRecord(letter, fault, now);
    }

    // requeue_dlq. faults says, for each record popped, which of its Redis
    // calls fail; arrivals, what the worker dead-letters just before the pop.
    method RequeueDlq(limit: nat, faults: nat -> Faults, arrivals: nat -> seq<Letter>, now: int)
      returns (counts: Counts, popped: seq<Letter>, fates: seq<Fate>)
      modifies this
      // The oldest records, each at most once, however many were pushed meanwhile.
      ensures |popped| <= limit && OldestFirst(old(dlq), popped)
      // Every popped record has one fate, and the counts are the fates' numbers.
      ensures |fates| == |popped| && Tallied(fates, counts)
      ensures FatesAre(popped, fates, old(store).meta.Keys, faults)
      ensures counts.failed <= 1
      ensures counts.failed == 0 ==> |popped| == if limit < |old(dlq)| then limit else |old(dlq)|
      // Each requeued record has its entry and, that write succeeding, its session
      // the status.
      ensures View().(dlq := []) == Forward(old(View()).(dlq := []), popped, fates, now)
      // Nothing else leaves or enters the dead letters.
      ensures Conserved(arrivals, old(dlq), dlq, popped, fates)
    {
      counts, popped, fates := Counts(0, 0, 0, 0), [], [];
      ghost var initial, known, front, start := dlq, store.meta.Keys, [], View().(dlq := []);
      var n := if limit < |dlq| then limit else |dlq|;
      Begins(initial, known, faults, arrivals);
      hide *;
      while |popped| < n && counts.failed == 0
        invariant |popped| <= n && |fates| == |popped|
        invariant InProgress(initial, known, faults, arrivals, front, dlq, popped, fates)
        invariant Tallied(fates, counts) && counts.failed <= 1
        invariant store.meta.Keys == known && View().(dlq := []) == Forward(start, popped, fates, now)
        decreases n - |popped|
      {
        ghost var before := dlq;
        NotEmptied(initial, known, faults, arrivals, front, dlq, popped, fates);
        var letter, fate := RequeueNext(arrivals(|popped|), faults(|popped|), now);
        Progresses(initial, known, faults, arrivals, front, before, popped, fates, letter, fate, dlq);
        TallyOne(fates, fate, counts);
        ForwardSnoc(start, popped, fates, letter, fate, now);
        front := Kept(letter, fate) + (arrivals(|popped|) + front);
        popped, fates := popped + [letter], fates + [fate];
        counts := Counted(counts, fate);
      }
      Ends(initial, known, faults, arrivals, front, dlq, popped, fates);
    }
  }

  predicate InProgress(initial: seq<Letter>, known: set<Sid>, faults: nat -> Faults, arrivals: nat -> seq<Letter>,
                       front: seq<Letter>, dlq: seq<Letter>, popped: seq<Letter>, fates: seq<Fate>)
    requires |popped| == |fates|
  {
    && OldestFirst(initial, popped)
    && FatesAre(popped, fates, known, faults)
    && Remains(initial, front, dlq, |popped|)
    && Conserved(arrivals, initial, dlq, popped, fates)
  }

  lemma Begins(initial: seq<Letter>, known: set<Sid>, faults: nat -> Faults, arrivals: nat -> seq<Letter>)
    ensures InProgress(initial, known, faults, arrivals, [], initial, [], [])
    ensures Tallied([], Counts(0, 0, 0, 0))
    ensures forall p, now :: Forward(p, [], [], now) == p
  {
    assert [] + initial[..|initial|] == initial;
  }

  lemma Ends(initial: seq<Letter>, known: set<Sid>, faults: nat -> Faults, arrivals: nat -> seq<Letter>,
             front: seq<Letter>, dlq: seq<Letter>, popped: seq<Letter>, fates: seq<Fate>)
    requires |popped| == |fates| && InProgress(initial, known, faults, arrivals, front, dlq, popped, fates)
    ensures OldestFirst(initial, popped) && FatesAre(popped, fates, known, faults)
    ensures Conserved(arrivals, initial, dlq, popped, fates)
  {
  }

  lemma NotEmptied(initial: seq<Letter>, known: set<Sid>, faults: nat -> Faults, arrivals: nat -> seq<Letter>,
                   front: seq<Letter>, dlq: seq<Letter>, popped: seq<Letter>, fates: seq<Fate>)
    requires |popped| == |fates| && InProgress(initial, known, faults, arrivals, front, dlq, popped, fates)
    requires |popped| < |initial|
    ensures dlq != []
  {
  }

  // One turn of the loop.
  lemma Progresses(initial: seq<Letter>, known: set<Sid>, faults: nat -> Faults, arrivals: nat -> seq<Letter>,
                   front: seq<Letter>, before: seq<Letter>, popped: seq<Letter>, fates: seq<Fate>,
                   letter: Letter, fate: Fate, dlq: seq<Letter>)
    requires |popped| == |fates| && InProgress(initial, known, faults, arrivals, front, before, popped, fates)
    requires |popped| < |initial| && fate == FateOf(letter, letter.sid in known, faults(|popped|))
    requires exists rest :: arrivals(|popped|) + before == rest + [letter] && dlq == Kept(letter, fate) + rest
    ensures InProgress(initial, known, faults, arrivals, Kept(letter, fate) + (arrivals(|popped|) + front), dlq,
                       popped + [letter], fates + [fate])
  {
    var arriving := arrivals(|popped|);
    TakesOldest(initial, arriving, front, before, |popped|);
    Remaining(initial, arriving, front, |popped|, letter, fate, dlq);
    Conserves(arrivals, initial, before, popped, fates, letter, fate, dlq);
    Extends(initial, popped, letter, fates, fate, known, faults);
    hide Conserved, Remains, FateOf, OldestFirst, FatesAre, Kept;
  }

  // popped is the tail end of the list, taken from its end.
  predicate OldestFirst(initial: seq<Letter>, popped: seq<Letter>) {
    |popped| <= |initial| && forall k :: 0 <= k < |popped| ==> popped[k] == initial[|initial| - 1 - k]
  }

  predicate FatesAre(popped: seq<Letter>, fates: seq<Fate>, known: set<Sid>, faults: nat -> Faults)
    requires |popped| == |fates|
  {
    forall k :: 0 <= k < |fates| ==> fates[k] == FateOf(popped[k], popped[k].sid in known, faults(k))
  }

  lemma Extends(initial: seq<Letter>, popped: seq<Letter>, letter: Letter, fates: seq<Fate>, fate: Fate,
                known: set<Sid>, faults: nat -> Faults)
    requires OldestFirst(initial, popped) && |popped| < |initial| && letter == initial[|initial| - 1 - |popped|]
    requires |popped| == |fates| && FatesAre(popped, fates, known, faults)
    requires fate == FateOf(letter, letter.sid in known, faults(|popped|))
    ensures OldestFirst(initial, popped + [letter])
    ensures FatesAre(popped + [letter], fates + [fate], known, faults)
  {
  }

  // Everything but the oldest n records is still there, behind what was pushed.
  predicate Remains(initial: seq<Letter>, front: seq<Letter>, dlq: seq<Letter>, n: nat) {
    n <= |initial| && dlq == front + initial[..|initial| - n]
  }

  // Pushes go to the head, so the pop takes the oldest record still there.
  lemma TakesOldest(initial: seq<Letter>, arriving: seq<Letter>, front: seq<Letter>, dlq: seq<Letter>, n: nat)
    requires Remains(initial, front, dlq, n) && n < |initial|
    ensures dlq != []
    ensures arriving + dlq == (arriving + front + initial[..|initial| - n - 1]) + [initial[|initial| - n - 1]]
  {
    assert initial[..|initial| - n] == initial[..|initial| - n - 1] + [initial[|initial| - n - 1]];
  }

  lemma Remaining(initial: seq<Letter>, arriving: seq<Letter>, front: seq<Letter>, n: nat,
                  letter: Letter, fate: Fate, dlq: seq<Letter>)
    requires n < |initial|
    requires exists rest :: dlq == Kept(letter, fate) + rest
               && (arriving + front + initial[..|initial| - n - 1]) + [initial[|initial| - n - 1]] == rest + [letter]
    ensures letter == initial[|initial| - n - 1]
    ensures Remains(initial, Kept(letter, fate) + (arriving + front), dlq, n + 1)
  {
    var mid := arriving + front + initial[..|initial| - n - 1];
    var rest :| dlq == Kept(letter, fate) + rest && mid + [initial[|initial| - n - 1]] == rest + [letter];
    assert (mid + [initial[|initial| - n - 1]])[..|mid|] == mid && (rest + [letter])[..|rest|] == rest;
    assert (rest + [letter])[|rest|] == letter;
    assert (mid + [initial[|initial| - n - 1]])[|mid|] == initial[|initial| - n - 1];
  }

  lemma TallyOne(fates: seq<Fate>, fate: Fate, c: Counts)
    requires Tallied(fates, c) && c.failed == 0
    ensures Tallied(fates + [fate], Counted(c, fate)) && Counted(c, fate).failed <= 1
  {
  }

  datatype Counts = Counts(requeued: nat, failed: nat, malformed: nat, expired: nat)

  function Counted(c: Counts, fate: Fate): Counts {
    match fate
    case Requeued => c.(requeued := c.requeued + 1)
    case Unmarked => c.(requeued := c.requeued + 1)
    case Malformed => c.(malformed := c.malformed + 1)
    case Expired => c.(expired := c.expired + 1)
    case _ => c.(failed := c.failed + 1)
  }

  predicate Tallied(fates: seq<Fate>, c: Counts) {
    && c.requeued == multiset(fates)[Requeued] + multiset(fates)[Unmarked]
    && c.expired == multiset(fates)[Expired]
    && c.malformed == multiset(fates)[Malformed]
    && c.failed == multiset(fates)[Restored] + multiset(fates)[Lost]
  }

  // Which of the calls for a record fail: the session's lookup, the enqueue, the
  // status write, the push back.
  datatype Faults = Faults(lookup: bool, enqueue: bool, status: bool, restore: bool)

  // A record a requeue pushes back.
  function Kept(letter: Letter, fate: Fate): seq<Letter> {
    if fate in {Malformed, Restored} then [letter] else []
  }

  // Unmarked: re-enqueued, but its session's status write failed.
  datatype Fate = Requeued | Unmarked | Expired | Malformed | Restored | Lost

  function FateOf(letter: Letter, known: bool, fault: Faults): Fate {
    if letter.sid == "" then if fault.restore then Lost else Malformed
    else if fault.lookup || (known && fault.enqueue) then if fault.restore then Lost else Restored
    else if !known then Expired
    else if fault.status then Unmarked else Requeued
  }

  // What one record's fate writes beside the dead letters.
  function ForwardOne(p: Pass, letter: Letter, fate: Fate, now: int): Pass {
    if fate in {Requeued, Unmarked} then
      p.(store := if fate == Requeued then SetDistillation(p.store, letter.sid, Queued) else p.store,
         stream := p.stream + [Job(p.nextId, Entry(letter.sid, 0, now))],
         nextId := p.nextId + 1)
    else p
  }

  function Forward(p: Pass, popped: seq<Letter>, fates: seq<Fate>, now: int): Pass
    requires |popped| == |fates|
  {
    if popped == [] then p
    else
      var n := |popped| - 1;
      ForwardOne(Forward(p, popped[..n], fates[..n], now), popped[n], fates[n], now)
  }

  lemma ForwardSnoc(p: Pass, popped: seq<Letter>, fates: seq<Fate>, letter: Letter, fate: Fate, now: int)
    requires |popped| == |fates|
    ensures Forward(p, popped + [letter], fates + [fate], now)
         == ForwardOne(Forward(p, popped, fates, now), letter, fate, now)
  {
    assert (popped + [letter])[..|popped|] == popped && (fates + [fate])[..|fates|] == fates;
  }

  // The letters pushed before the first n pops.
  function Arrived(arrivals: nat -> seq<Letter>, n: nat): multiset<Letter> {
    if n == 0 then multiset{} else Arrived(arrivals, n - 1) + multiset(arrivals(n - 1))
  }

  // The popped letters that met one of the given fates.
  function Sent(popped: seq<Letter>, fates: seq<Fate>, ends: set<Fate>): multiset<Letter>
    requires |popped| == |fates|
  {
    if popped == [] then multiset{}
    else
      var n := |popped| - 1;
      Sent(popped[..n], fates[..n], ends) + if fates[n] in ends then multiset{popped[n]} else multiset{}
  }

  // Nothing leaves the dead letters but what was sent on, and nothing enters
  // but what the worker pushed.
  predicate Conserved(arrivals: nat -> seq<Letter>, initial: seq<Letter>, dlq: seq<Letter>,
                      popped: seq<Letter>, fates: seq<Fate>)
    requires |popped| == |fates|
  {
    var sent := Sent(popped, fates, {Requeued, Unmarked, Expired, Lost});
    multiset(initial) + Arrived(arrivals, |popped|) == multiset(dlq) + sent
  }

  lemma Conserves(arrivals: nat -> seq<Letter>, initial: seq<Letter>, before: seq<Letter>, popped: seq<Letter>,
                  fates: seq<Fate>, letter: Letter, fate: Fate, dlq: seq<Letter>)
    requires |popped| == |fates| && Conserved(arrivals, initial, before, popped, fates)
    requires exists rest :: arrivals(|popped|) + before == rest + [letter] && dlq == Kept(letter, fate) + rest
    ensures Conserved(arrivals, initial, dlq, popped + [letter], fates + [fate])
  {
    var rest :| arrivals(|popped|) + before == rest + [letter] && dlq == Kept(letter, fate) + rest;
    var arriving, sent := arrivals(|popped|), Sent(popped, fates, {Requeued, Unmarked, Expired, Lost});
    assert multiset(arriving + before) == multiset(rest + [letter]);
    Balances(multiset(initial), Arrived(arrivals, |popped|), multiset(before), sent, multiset(arriving),
             multiset(rest), multiset{letter});
    assert (popped + [letter])[..|popped|] == popped && (fates + [fate])[..|fates|] == fates;
    assert multiset(Kept(letter, fate) + rest) == multiset(Kept(letter, fate)) + multiset(rest);
  }

  lemma Balances(a: multiset<Letter>, v: multiset<Letter>, b: multiset<Letter>, s: multiset<Letter>,
                 w: multiset<Letter>, r: multiset<Letter>, l: multiset<Letter>)
    requires a + v == b + s && w + b == r + l
    ensures a + (v + w) == r + (s + l) == (l + r) + s
  {
    forall x ensures (a + (v + w))[x] == (r + (s + l))[x] {
      assert (a + v)[x] == (b + s)[x] && (w + b)[x] == (r + l)[x];
    }
  }

  // With every restore succeeding, what a requeue takes out of the dead letters
  // is what it re-enqueued or found expired.
  lemma {:induction false} NothingLost(popped: seq<Letter>, fates: seq<Fate>)
    requires |popped| == |fates| && Lost !in fates
    ensures Sent(popped, fates, {Requeued, Unmarked, Expired, Lost})
         == Sent(popped, fates, {Requeued, Unmarked}) + Sent(popped, fates, {Expired})
  {
    if popped != [] {
      NothingLost(popped[..|popped| - 1], fates[..|popped| - 1]);
    }
  }

  // ---- retries ----

  // The delays before the first `attempts` retries of a job.
  function Scheduled(attempts: nat): nat {
    if attempts == 0 then 0 else Scheduled(attempts - 1) + Backoff(attempts)
  }

  lemma {:induction false} ScheduledDelays(attempts: nat)
    requires attempts < MAX_ATTEMPTS
    ensures Scheduled(attempts) == 10 * (Pow2(attempts) - 1) <= 5110
  {
    assert Pow2(9) == 512 by {
      assert Pow2(3) == 8 && Pow2(6) == 8 * Pow2(3) && Pow2(9) == 8 * Pow2(6);
    }
    if attempts > 0 {
      ScheduledDelays(attempts - 1);
      Pow2Grows(attempts, 9);
    }
  }

  lemma {:induction false} Pow2Grows(m: nat, n: nat)
    requires m <= n
    ensures 1 <= Pow2(m) <= Pow2(n)
    decreases n
  {
    if m < n {
      Pow2Grows(m, n - 1);
    } else if m > 0 {
      Pow2Grows(m - 1, n - 1);
    }
  }

  // Tries left to all queued jobs together.
  function Budget(stream: seq<Job>): int {
    if stream == [] then 0 else Budget(stream[1..]) + MAX_ATTEMPTS - stream[0].entry.attempts
  }

  predicate StreamOk(stream: seq<Job>, nextId: nat) {
    && (forall i, j :: 0 <= i < j < |stream| ==> stream[i].id != stream[j].id)
    && (forall i :: 0 <= i < |stream| ==> stream[i].id < nextId && stream[i].entry.attempts < MAX_ATTEMPTS)
  }

  lemma {:induction false} BudgetAppend(a: seq<Job>, b: seq<Job>)
    ensures Budget(a + b) == Budget(a) + Budget(b)
  {
    if a == [] {
      assert a + b == b;
    } else {
      assert (a + b)[1..] == a[1..] + b;
      BudgetAppend(a[1..], b);
    }
  }

  lemma {:induction false} WithoutOne(stream: seq<Job>, k: nat)
    requires k < |stream|
    requires forall i, j :: 0 <= i < j < |stream| ==> stream[i].id != stream[j].id
    ensures Without(stream, stream[k].id) == stream[..k] + stream[k + 1..]
  {
    if k == 0 {
      WithoutNone(stream[1..], stream[0].id);
    } else {
      WithoutOne(stream[1..], k - 1);
    }
  }

  lemma {:induction false} WithoutNone(stream: seq<Job>, id: nat)
    requires forall i :: 0 <= i < |stream| ==> stream[i].id != id
    ensures Without(stream, id) == stream
  {
    if stream != [] {
      WithoutNone(stream[1..], id);
    }
  }

  lemma DroppingKeepsOk(stream: seq<Job>, nextId: nat, k: nat)
    requires StreamOk(stream, nextId) && k < |stream|
    ensures StreamOk(stream[..k] + stream[k + 1..], nextId)
  {
    var kept := stream[..k] + stream[k + 1..];
    forall i | 0 <= i < |kept| ensures kept[i] == stream[if i < k then i else i + 1] {}
  }

  lemma {:induction false} CuttingSpends(stream: seq<Job>, k: nat)
    requires k < |stream|
    ensures Budget(stream[..k] + stream[k + 1..]) == Budget(stream) - MAX_ATTEMPTS + stream[k].entry.attempts
  {
    var cut := stream[..k] + stream[k + 1..];
    if k == 0 {
      assert cut == stream[1..];
    } else {
      CuttingSpends(stream[1..], k - 1);
      assert cut[0] == stream[0] && cut[1..] == stream[1..][..k - 1] + stream[1..][k..];
    }
  }

  lemma DroppingSpends(stream: seq<Job>, nextId: nat, k: nat)
    requires StreamOk(stream, nextId) && k < |stream|
    ensures stream[k].entry.attempts < MAX_ATTEMPTS
    ensures StreamOk(Without(stream, stream[k].id), nextId)
    ensures Budget(Without(stream, stream[k].id)) == Budget(stream) - MAX_ATTEMPTS + stream[k].entry.attempts
  {
    hide Without, Budget;
    WithoutOne(stream, k);
    DroppingKeepsOk(stream, nextId, k);
    CuttingSpends(stream, k);
  }

  lemma OneBudget(job: Job)
    ensures Budget([job]) == MAX_ATTEMPTS - job.entry.attempts
  {
    assert Budget([job][1..]) == 0;
  }

  lemma RetryingSpends(stream: seq<Job>, nextId: nat, k: nat, retry: Entry)
    requires StreamOk(stream, nextId) && k < |stream| && stream[k].entry.attempts + 1 == retry.attempts < MAX_ATTEMPTS
    ensures var after := Without(stream + [Job(nextId, retry)], stream[k].id);
            StreamOk(after, nextId + 1) && Budget(after) == Budget(stream) - 1
  {
    hide Without, Budget;
    var longer := stream + [Job(nextId, retry)];
    assert longer[k] == stream[k] && Budget([Job(nextId, retry)]) == MAX_ATTEMPTS - retry.attempts by {
      OneBudget(Job(nextId, retry));
    }
    DroppingSpends(longer, nextId + 1, k);
    BudgetAppend(stream, [Job(nextId, retry)]);
  }

  // Each processed entry brings the end nearer: the budget falls, by one for a
  // retry and by all the entry had left otherwise.
  lemma ProcessingSpendsBudget(p: Pass, k: nat, distilled: Distilled, now: int)
    requires StreamOk(p.stream, p.nextId) && k < |p.stream|
    ensures var after := ProcessOne(p, p.stream[k], distilled, now);
            var spent := if after.nextId > p.nextId then 1 else MAX_ATTEMPTS - p.stream[k].entry.attempts;
            StreamOk(after.stream, after.nextId) && spent > 0 && Budget(after.stream) == Budget(p.stream) - spent
  {
    hide Without, Budget, StreamOk, SetExpiry, SetDistillation;
    DroppingSpends(p.stream, p.nextId, k);
    if p.stream[k].entry.attempts + 1 < MAX_ATTEMPTS {
      RetryingSpends(p.stream, p.nextId, k, Retry(p.stream[k].entry, now));
    }
  }

  // ---- the protocol's worker steps, taken without interruption ----

  function WorkAll(st: Store, proc: Worker, steps: seq<WorkStep>): WorkEffect
    decreases |steps|
  {
    if steps == [] then WorkEffect(proc, st, [], None, {})
    else
      var e := WorkMove(st, proc, steps[0]);
      var more := WorkAll(e.store, e.proc, steps[1..]);
      WorkEffect(more.proc, more.store, more.letters + e.letters,
                 if e.added.Some? then e.added else more.added, e.removed + more.removed)
  }

  // The commands process_queue_once issues for one due entry.
  function CommandsFor(st: Store, job: Job, distilled: Distilled, now: int): seq<WorkStep> {
    if job.entry.sid == "" || job.entry.sid !in st.meta then [Load, Drop]
    else if distilled.Learned? then [Load, Outcome(distilled, now), ApplyTtl, Drop]
    else if job.entry.attempts + 1 >= MAX_ATTEMPTS || distilled.permanent then
      [Load, Outcome(distilled, now), MarkDead, ApplyTtl, Drop]
    else [Load, Outcome(distilled, now), Drop]
  }

  // Uninterrupted, a worker's commands add up to ProcessOne.
  lemma WorkerStepsAddUp(p: Pass, job: Job, rest: seq<Job>, distilled: Distilled, now: int)
    ensures var e := WorkAll(p.store, Head([job] + rest), CommandsFor(p.store, job, distilled, now));
            var after := ProcessOne(p, job, distilled, now);
            && e.proc == Head(rest) && e.removed == {job.id}
            && after.store == e.store
            && after.dlq == e.letters + p.dlq
            && after.stream ==
                 Without(p.stream + (if e.added.Some? then [Job(p.nextId, e.added.value)] else []), job.id)
  {
    hide SetDistillation, SetExpiry, Without, WorkAll, WorkMove;
    assert p.stream + [] == p.stream && [] + p.dlq == p.dlq;
    var st, sid := p.store, job.entry.sid;
    if sid == "" || sid !in st.meta {
      NothingAddsUp(st, job, rest);
    } else if distilled.Learned? {
      LearningAddsUp(st, job, rest, now);
    } else if job.entry.attempts + 1 >= MAX_ATTEMPTS || distilled.permanent {
      GivingUpAddsUp(st, job, rest, distilled, now);
    } else {
      RetryingAddsUp(st, job, rest, distilled, now);
    }
  }

  lemma NothingAddsUp(st: Store, job: Job, rest: seq<Job>)
    requires job.entry.sid == "" || job.entry.sid !in st.meta
    ensures WorkAll(st, Head([job] + rest), [Load, Drop]) == WorkEffect(Head(rest), st, [], None, {job.id})
  {
    hide WorkAll;
    assert ([job] + rest)[1..] == rest && [Load] + [Drop] == [Load, Drop] && [Drop] + [] == [Drop];
    Unfold(st, Head([job] + rest), Load, [Drop]);
    Unfold(st, Settled(job, rest), Drop, []);
    Unfold(st, Head(rest), Drop, []);
  }

  lemma RetryingAddsUp(st: Store, job: Job, rest: seq<Job>, distilled: Distilled, now: int)
    requires job.entry.sid != "" && job.entry.sid in st.meta && distilled.Failed?
    requires job.entry.attempts + 1 < MAX_ATTEMPTS && !distilled.permanent
    ensures WorkAll(st, Head([job] + rest), [Load, Outcome(distilled, now), Drop])
         == WorkEffect(Head(rest), st, [], Some(Retry(job.entry, now)), {job.id})
  {
    hide SetDistillation, SetExpiry, WorkAll;
    assert ([job] + rest)[1..] == rest && [Drop] + [] == [Drop];
    assert [Outcome(distilled, now)] + [Drop] == [Outcome(distilled, now), Drop];
    assert [Load] + [Outcome(distilled, now), Drop] == [Load, Outcome(distilled, now), Drop];
    Unfold(st, Head([job] + rest), Load, [Outcome(distilled, now), Drop]);
    Unfold(st, Loaded(job, rest), Outcome(distilled, now), [Drop]);
    Unfold(st, Settled(job, rest), Drop, []);
    Unfold(st, Head(rest), Drop, []);
  }

  lemma MarkedAddsUp(st: Store, job: Job, rest: seq<Job>)
    ensures WorkAll(st, Marked(job, rest), [ApplyTtl, Drop])
         == WorkEffect(Head(rest), SetExpiry(st, job.entry.sid), [], None, {job.id})
  {
    hide SetExpiry;
    assert [ApplyTtl, Drop][1..] == [Drop] && [Drop][1..] == [];
    Unfold(st, Marked(job, rest), ApplyTtl, [Drop]);
    Unfold(SetExpiry(st, job.entry.sid), Settled(job, rest), Drop, []);
  }

  lemma LearningAddsUp(st: Store, job: Job, rest: seq<Job>, now: int)
    requires job.entry.sid != "" && job.entry.sid in st.meta
    ensures WorkAll(st, Head([job] + rest), [Load, Outcome(Learned, now), ApplyTtl, Drop])
         == WorkEffect(Head(rest), SetExpiry(SetDistillation(st, job.entry.sid, Succeeded), job.entry.sid),
                       [], None, {job.id})
  {
    hide SetDistillation, SetExpiry, WorkAll;
    assert ([job] + rest)[1..] == rest;
    var tail := [Outcome(Learned, now), ApplyTtl, Drop];
    assert [Load] + tail == [Load, Outcome(Learned, now), ApplyTtl, Drop];
    assert [Outcome(Learned, now)] + [ApplyTtl, Drop] == tail;
    Unfold(st, Head([job] + rest), Load, tail);
    Unfold(st, Loaded(job, rest), Outcome(Learned, now), [ApplyTtl, Drop]);
    MarkedAddsUp(SetDistillation(st, job.entry.sid, Succeeded), job, rest);
  }

  lemma GivingUpAddsUp(st: Store, job: Job, rest: seq<Job>, distilled: Distilled, now: int)
    requires job.entry.sid != "" && job.entry.sid in st.meta && distilled.Failed?
    requires job.entry.attempts + 1 >= MAX_ATTEMPTS || distilled.permanent
    ensures WorkAll(st, Head([job] + rest), [Load, Outcome(distilled, now), MarkDead, ApplyTtl, Drop])
         == WorkEffect(Head(rest), SetExpiry(SetDistillation(st, job.entry.sid, DeadLettered), job.entry.sid),
                       [Letter(job.entry.sid, job.entry.attempts + 1)], None, {job.id})
  {
    hide SetDistillation, SetExpiry, WorkAll;
    assert ([job] + rest)[1..] == rest;
    var tail := [Outcome(distilled, now), MarkDead, ApplyTtl, Drop];
    assert [Load] + tail == [Load, Outcome(distilled, now), MarkDead, ApplyTtl, Drop];
    assert [Outcome(distilled, now)] + [MarkDead, ApplyTtl, Drop] == tail;
    assert [MarkDead] + [ApplyTtl, Drop] == [MarkDead, ApplyTtl, Drop];
    Unfold(st, Head([job] + rest), Load, tail);
    Unfold(st, Loaded(job, rest), Outcome(distilled, now), [MarkDead, ApplyTtl, Drop]);
    Unfold(st, Parked(job, rest), MarkDead, [ApplyTtl, Drop]);
    MarkedAddsUp(SetDistillation(st, job.entry.sid, DeadLettered), job, rest);
  }

  lemma Unfold(st: Store, proc: Worker, first: WorkStep, others: seq<WorkStep>)
    ensures var e := WorkMove(st, proc, first);
            var more := WorkAll(e.store, e.proc, others);
            (WorkAll(st, proc, [first] + others)
             == WorkEffect(more.proc, more.store, more.letters + e.letters,
                           if e.added.Some? then e.added else more.added, e.removed + more.removed))
    ensures WorkAll(st, proc, []) == WorkEffect(proc, st, [], None, {})
  {
    assert ([first] + others)[1..] == others;
  }
}
