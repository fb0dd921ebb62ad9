/** The eviction sweep run after every start. */
module Eviction {
  import opened Wrappers
  import opened Principal
  import opened SessionStore

  // What a sweep leaves: some of the hashes, unchanged, with no active session
  // and no undistilled completion missing.
  predicate Thinned(before: Store, after: Store) {
    && after.pointer == before.pointer
    && (forall s :: s in after.meta ==> s in before.meta && after.meta[s] == before.meta[s])
    && (forall s :: s in before.meta && s !in after.meta ==> !Pinned(before.meta[s]))
  }

  predicate Pinned(m: Meta) {
    m.status == Active || (m.status == Completed && m.distillation == Queued)
  }

  lemma {:induction false} EvictAllThins(cfg: Config, st: Store, oldest: seq<Scored>)
    ensures Thinned(st, EvictAll(cfg, st, oldest))
  {
    if oldest != [] {
      EvictAllThins(cfg, st, oldest[..|oldest| - 1]);
    }
  }

  // ---- exactly what a sweep removes ----

  predicate Distinct(index: seq<Scored>) {
    forall i, j :: 0 <= i < j < |index| ==> index[i].sid != index[j].sid
  }

  lemma {:induction false} ZRemSplits(before: seq<Scored>, e: Scored, after: seq<Scored>)
    requires Distinct(before + [e] + after)
    ensures ZRem(before + [e] + after, e.sid) == before + after
  {
    var all := before + [e] + after;
    if before == [] {
      assert all[1..] == after;
      forall i | 0 <= i < |after| ensures after[i].sid != e.sid { assert after[i] == all[i + 1]; }
      ZRemAbsent(after, e.sid);
    } else {
      assert all[1..] == before[1..] + [e] + after;
      assert Distinct(all[1..]);
      assert all[0].sid != all[|before|].sid;
      ZRemSplits(before[1..], e, after);
    }
  }

  lemma {:induction false} ZRemAbsent(index: seq<Scored>, sid: Sid)
    requires forall i :: 0 <= i < |index| ==> index[i].sid != sid
    ensures ZRem(index, sid) == index
  {
    if index != [] {
      ZRemAbsent(index[1..], sid);
    }
  }

  // Candidate k goes when the sweep reaches it: it has no metadata, or is
  // neither live nor awaiting distillation, or is paused while the index is
  // still over twice the maximum.
  predicate Goes(cfg: Config, st: Store, oldest: seq<Scored>, k: nat)
    requires k < |oldest|
  {
    oldest[k].sid in st.meta ==>
      var m := st.meta[oldest[k].sid];
      && !Pinned(m)
      && (m.status == Paused ==> |EvictAll(cfg, st, oldest[..k]).index| > 2 * cfg.maxSessions)
  }

  function Staying(cfg: Config, st: Store, oldest: seq<Scored>, k: nat): seq<Scored>
    requires k <= |oldest|
  {
    if k == 0 then []
    else Staying(cfg, st, oldest, k - 1) + if Goes(cfg, st, oldest, k - 1) then [] else [oldest[k - 1]]
  }

  lemma {:induction false} StayingIsFrom(cfg: Config, st: Store, oldest: seq<Scored>, k: nat)
    requires k <= |oldest|
    ensures forall e :: e in Staying(cfg, st, oldest, k) <==>
              exists i :: 0 <= i < k && oldest[i] == e && !Goes(cfg, st, oldest, i)
    ensures Distinct(oldest) ==> Distinct(Staying(cfg, st, oldest, k))
    ensures |Staying(cfg, st, oldest, k)| <= k
  {
    hide Goes;
    if k > 0 {
      StayingIsFrom(cfg, st, oldest, k - 1);
      var most := Staying(cfg, st, oldest, k - 1);
      if Distinct(oldest) {
        forall i | 0 <= i < |most| ensures most[i].sid != oldest[k - 1].sid {
          assert most[i] in most;
        }
      }
    }
  }

  lemma {:induction false} SweepPrefix(cfg: Config, st: Store, oldest: seq<Scored>, newest: seq<Scored>, k: nat)
    requires st.index == oldest + newest && Distinct(st.index) && k <= |oldest|
    ensures EvictAll(cfg, st, oldest[..k]).index == Staying(cfg, st, oldest, k) + oldest[k..] + newest
    ensures forall s :: s in EvictAll(cfg, st, oldest[..k]).meta <==>
              s in st.meta && !exists i :: 0 <= i < k && oldest[i].sid == s && Goes(cfg, st, oldest, i)
    ensures forall s :: s in EvictAll(cfg, st, oldest[..k]).meta ==>
              EvictAll(cfg, st, oldest[..k]).meta[s] == st.meta[s]
  {
    hide Goes, ZRem, EvictOne;
    if k > 0 {
      SweepPrefix(cfg, st, oldest, newest, k - 1);
      var before := EvictAll(cfg, st, oldest[..k - 1]);
      var kept, e := Staying(cfg, st, oldest, k - 1), oldest[k - 1];
      assert oldest[..k][..k - 1] == oldest[..k - 1];
      assert oldest[k - 1..] == [e] + oldest[k..];
      assert before.index == kept + [e] + (oldest[k..] + newest);
      StayingThenRestDistinct(cfg, st, oldest, newest, k - 1);
      ZRemSplits(kept, e, oldest[k..] + newest);
      assert forall i | 0 <= i < k - 1 :: oldest[i].sid != e.sid by {
        forall i | 0 <= i < k - 1 ensures oldest[i].sid != e.sid {
          assert st.index[i] == oldest[i] && st.index[k - 1] == e;
        }
      }
      SweepOne(cfg, st, oldest, k, before);
    }
  }

  lemma StayingThenRestDistinct(cfg: Config, st: Store, oldest: seq<Scored>, newest: seq<Scored>, k: nat)
    requires Distinct(oldest + newest) && k < |oldest|
    ensures Distinct(Staying(cfg, st, oldest, k) + [oldest[k]] + (oldest[k + 1..] + newest))
  {
    StayingIsFrom(cfg, st, oldest, k);
    var kept, rest := Staying(cfg, st, oldest, k), (oldest + newest)[k..];
    assert [oldest[k]] + (oldest[k + 1..] + newest) == rest;
    assert Distinct(oldest) by {
      forall i, j | 0 <= i < j < |oldest| ensures oldest[i].sid != oldest[j].sid {
        assert (oldest + newest)[i] == oldest[i] && (oldest + newest)[j] == oldest[j];
      }
    }
    forall i, j | 0 <= i < |kept| && 0 <= j < |rest| ensures kept[i].sid != rest[j].sid {
      assert kept[i] in kept;
      var o :| 0 <= o < k && oldest[o] == kept[i];
      assert (oldest + newest)[o] == oldest[o] && (oldest + newest)[k + j] == rest[j];
    }
    assert Distinct(rest) by {
      forall i, j | 0 <= i < j < |rest| ensures rest[i].sid != rest[j].sid {
        assert rest[i] == (oldest + newest)[k + i] && rest[j] == (oldest + newest)[k + j];
      }
    }
    assert kept + [oldest[k]] + (oldest[k + 1..] + newest) == kept + rest;
  }

  lemma SweepOne(cfg: Config, st: Store, oldest: seq<Scored>, k: nat, before: Store)
    requires 0 < k <= |oldest| && before == EvictAll(cfg, st, oldest[..k - 1])
    requires oldest[k - 1].sid in before.meta <==> oldest[k - 1].sid in st.meta
    requires oldest[k - 1].sid in st.meta ==> before.meta[oldest[k - 1].sid] == st.meta[oldest[k - 1].sid]
    ensures EvictAll(cfg, st, oldest[..k]) == EvictOne(cfg, before, oldest[k - 1].sid)
    ensures var after := EvictOne(cfg, before, oldest[k - 1].sid);
            if Goes(cfg, st, oldest, k - 1)
            then after.meta == before.meta - {oldest[k - 1].sid} && after.index == ZRem(before.index, oldest[k - 1].sid)
            else after == before
  {
    assert oldest[..k][..k - 1] == oldest[..k - 1];
  }

  lemma {:induction false} StayingGrows(cfg: Config, st: Store, oldest: seq<Scored>, k: nat, n: nat)
    requires k <= n <= |oldest|
    ensures |Staying(cfg, st, oldest, n)| - |Staying(cfg, st, oldest, k)| <= n - k
  {
    if k < n {
      StayingGrows(cfg, st, oldest, k, n - 1);
    }
  }

  lemma OverfullLeavesPinned(cfg: Config, st: Store, oldest: seq<Scored>, newest: seq<Scored>)
    requires st.index == oldest + newest && Distinct(st.index)
    requires |EvictAll(cfg, st, oldest).index| > 2 * cfg.maxSessions
    ensures forall e :: e in Staying(cfg, st, oldest, |oldest|) ==> e.sid in st.meta && Pinned(st.meta[e.sid])
  {
    var n := |oldest|;
    assert oldest[..n] == oldest;
    SweepPrefix(cfg, st, oldest, newest, n);
    StayingIsFrom(cfg, st, oldest, n);
    forall e | e in Staying(cfg, st, oldest, n) ensures e.sid in st.meta && Pinned(st.meta[e.sid]) {
      var k :| 0 <= k < n && oldest[k] == e && !Goes(cfg, st, oldest, k);
      SweepPrefix(cfg, st, oldest, newest, k);
      StayingGrows(cfg, st, oldest, k, n);
      hide EvictAll, Staying;
    }
  }

  // The whole sweep: the newest maxSessions entries and their sessions are
  // untouched; candidate k leaves index and store exactly if it Goes; and while
  // the index stays over twice the maximum, every candidate left is pinned.
  lemma SweepRemovesExactly(cfg: Config, st: Store)
    requires Distinct(st.index) && |st.index| > cfg.maxSessions
    ensures var oldest := Candidates(cfg, st);
            var newest := st.index[|oldest|..];
            var after := Evict(cfg, st);
            && |newest| == cfg.maxSessions && st.index == oldest + newest
            && after.index == Staying(cfg, st, oldest, |oldest|) + newest
            && after.pointer == st.pointer
            && (forall s :: s in after.meta <==>
                  s in st.meta && !exists k :: 0 <= k < |oldest| && oldest[k].sid == s && Goes(cfg, st, oldest, k))
            && (forall s :: s in after.meta ==> after.meta[s] == st.meta[s])
            && (|after.index| > 2 * cfg.maxSessions ==>
                  forall e :: e in Staying(cfg, st, oldest, |oldest|) ==> e.sid in st.meta && Pinned(st.meta[e.sid]))
  {
    hide EvictAll, Staying, Goes, Pinned, Distinct;
    var oldest := Candidates(cfg, st);
    var newest := st.index[|oldest|..];
    assert st.index == oldest + newest && oldest[..|oldest|] == oldest;
    assert oldest[|oldest|..] == [];
    SweepPrefix(cfg, st, oldest, newest, |oldest|);
    EvictAllThins(cfg, st, oldest);
    if |Evict(cfg, st).index| > 2 * cfg.maxSessions {
      OverfullLeavesPinned(cfg, st, oldest, newest);
    }
  }

  // ---- the index lists a session once, lowest score first ----

  predicate Sorted(index: seq<Scored>) {
    forall i, j :: 0 <= i < j < |index| ==> index[i].score <= index[j].score
  }

  predicate Ordered(index: seq<Scored>) { Distinct(index) && Sorted(index) }

  lemma {:induction false} ZRemKeeps(index: seq<Scored>, sid: Sid)
    ensures forall e :: e in ZRem(index, sid) <==> e in index && e.sid != sid
    ensures Distinct(index) ==> Distinct(ZRem(index, sid))
  {
    if index != [] {
      ZRemKeeps(index[1..], sid);
      var rest := ZRem(index[1..], sid);
      forall i | 0 <= i < |rest| ensures rest[i] in index[1..] {
        assert rest[i] in rest;
      }
    }
  }

  lemma {:induction false} ZRemKeepsSorted(index: seq<Scored>, sid: Sid)
    requires Sorted(index)
    ensures Sorted(ZRem(index, sid))
  {
    if index != [] {
      ZRemKeepsSorted(index[1..], sid);
      ZRemKeeps(index[1..], sid);
      var rest := ZRem(index[1..], sid);
      forall i | 0 <= i < |rest| ensures index[0].score <= rest[i].score {
        assert rest[i] in rest;
      }
    }
  }

  lemma ZRemKeepsOrdered(index: seq<Scored>, sid: Sid)
    requires Ordered(index)
    ensures Ordered(ZRem(index, sid))
  {
    ZRemKeeps(index, sid);
    ZRemKeepsSorted(index, sid);
  }

  lemma {:induction false} ZInsertKeeps(index: seq<Scored>, e: Scored)
    ensures forall x :: x in ZInsert(index, e) <==> x == e || x in index
    ensures Distinct(index) && (forall x :: x in index ==> x.sid != e.sid) ==> Distinct(ZInsert(index, e))
    ensures Sorted(index) ==> Sorted(ZInsert(index, e))
  {
    if index != [] && e.score >= index[0].score {
      ZInsertKeeps(index[1..], e);
      var rest := ZInsert(index[1..], e);
      assert forall i | 0 <= i < |rest| :: rest[i] in rest;
    }
  }

  lemma ZAddKeepsOrdered(index: seq<Scored>, sid: Sid, score: int)
    requires Ordered(index)
    ensures Ordered(ZAdd(index, sid, score))
  {
    hide Sorted, Distinct;
    ZRemKeeps(index, sid);
    ZRemKeepsOrdered(index, sid);
    ZInsertKeeps(ZRem(index, sid), Scored(sid, score));
  }

  lemma {:induction false} EvictAllKeepsOrdered(cfg: Config, st: Store, oldest: seq<Scored>)
    requires Ordered(st.index)
    ensures Ordered(EvictAll(cfg, st, oldest).index)
  {
    if oldest != [] {
      EvictAllKeepsOrdered(cfg, st, oldest[..|oldest| - 1]);
      ZRemKeepsOrdered(EvictAll(cfg, st, oldest[..|oldest| - 1]).index, oldest[|oldest| - 1].sid);
    }
  }

  lemma StartKeepsOrdered(cfg: Config, st: Store, agent: Label, sid: Sid, owner: Owner, ts: int)
    requires Ordered(st.index)
    ensures Ordered(StartCommit(cfg, st, agent, sid, owner, ts).index)
  {
    DisplacedKeepsOrdered(st, agent, ts);
    ZAddKeepsOrdered(Displaced(st, agent, ts).index, sid, ts);
    var begun := Begun(st, agent, sid, owner, ts);
    EvictAllKeepsOrdered(cfg, begun, Candidates(cfg, begun));
  }

  lemma DisplacedKeepsOrdered(st: Store, agent: Label, ts: int)
    requires Ordered(st.index)
    ensures Ordered(Displaced(st, agent, ts).index)
  {
    if agent in st.pointer {
      ZAddKeepsOrdered(st.index, st.pointer[agent], ts);
    }
  }
}
