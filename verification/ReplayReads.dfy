/** What the scoped reads answer, said of the store's own entries. */
module ReplayReads {
  import opened Wrappers
  import opened Principal
  import opened ReplayAuthz
  import opened Residency
  import opened ReplayReader

  // ---- who sees an event, and a session's index ----

  // The caller's workspace is the one the event is stamped with, or the
  // deployment's if it has none; and a caller confined to a member is the one
  // stamped, or, where none is, the owner of the deployment at home.
  lemma SeesIff(rd: Reader, e: Event)
    ensures Sees(rd, e) <==>
      && rd.scope.workspace != ""
      && rd.scope.workspace == (if e.workspace != "" then e.workspace else rd.deployment.workspace)
      && (rd.scope.member.Some? ==>
        var member := rd.scope.member.value;
        && member != ""
        && if e.member != "" then member == e.member
           else member == rd.deployment.owner && rd.scope.workspace == rd.deployment.workspace)
  {
  }

  lemma IndexIs(s: Store, session: string)
    ensures session in s.sessions ==> IndexOf(s, session) == s.sessions[session]
    ensures session !in s.sessions ==> IndexOf(s, session) == []
  {
  }

  // ---- one event ----

  // The id index leads to entry k: the first under the stream id it names, and
  // that entry is of this event.
  predicate Leads(s: Store, id: Id, k: nat) {
    && id in s.eid && k < |s.stream| && s.stream[k].at == s.eid[id] && s.stream[k].event.id == id
    && forall j :: 0 <= j < k ==> s.stream[j].at != s.eid[id]
  }

  // Entry k is the newest of this event, and among the newest 2000 of all.
  predicate IsRecent(s: Store, id: Id, k: nat) {
    && k < |s.stream| && |s.stream| <= k + 2000 && s.stream[k].event.id == id
    && forall j :: k < j < |s.stream| ==> s.stream[j].event.id != id
  }

  // A read answers with the entry the index leads to, or else with the newest
  // recent one, if the caller may see it; and with nothing if there is neither.
  lemma EventOfIs(s: Store, id: Id, rd: Reader) returns (k: nat)
    ensures k < |s.stream| ==>
      && (Leads(s, id, k) || ((forall j: nat :: !Leads(s, id, j)) && IsRecent(s, id, k)))
      && EventOf(s, id, rd) == if Sees(rd, s.stream[k].event) then Some(s.stream[k].event) else None
    ensures k >= |s.stream| ==>
      (forall j: nat :: !Leads(s, id, j) && !IsRecent(s, id, j)) && EventOf(s, id, rd).None?
  {
    hide Sees;
    if id in s.eid {
      k := EntryAtIs(s.stream, s.eid[id]);
      if k < |s.stream| && s.stream[k].event.id == id {
        assert Leads(s, id, k);
        return;
      }
    }
    assert forall j: nat :: !Leads(s, id, j);
    k := FindRecentIs(s.stream, id, RECENT);
  }

  lemma {:induction false} EntryAtIs(stream: seq<Entry>, at: nat) returns (k: nat)
    ensures k <= |stream| && forall j :: 0 <= j < k ==> stream[j].at != at
    ensures k < |stream| ==> stream[k].at == at && EntryAt(stream, at) == Some(stream[k].event)
    ensures k == |stream| ==> EntryAt(stream, at).None?
  {
    k := 0;
    if stream != [] && stream[0].at != at {
      var rest := EntryAtIs(stream[1..], at);
      k := rest + 1;
      assert forall j :: 0 < j < |stream| ==> stream[j] == stream[1..][j - 1];
    }
  }

  lemma {:induction false} FindRecentIs(stream: seq<Entry>, id: Id, n: nat) returns (k: nat)
    ensures k < |stream| ==>
      && |stream| <= k + n && stream[k].event.id == id && (forall j :: k < j < |stream| ==> stream[j].event.id != id)
      && FindRecent(stream, id, n) == Some(stream[k].event)
    ensures k >= |stream| ==>
      && (forall j :: 0 <= j < |stream| && |stream| <= j + n ==> stream[j].event.id != id)
      && FindRecent(stream, id, n).None?
  {
    k := 0;
    if stream != [] && n > 0 {
      var last := |stream| - 1;
      if stream[last].event.id == id {
        k := last;
      } else {
        k := FindRecentIs(stream[..last], id, n - 1);
        k := if k < last then k else |stream|;
      }
    } else {
      k := |stream|;
    }
  }

  // ---- the context at an event ----

  // What an event's snapshot is: the stored text its reference names, if it has a
  // reference and a text is stored under it.
  lemma SnapshotIs(s: Store, e: Event)
    ensures Snapshot(s, e) != "" <==>
      e.contextRef != "" && e.contextRef in s.ctx && s.ctx[e.contextRef] != ""
    ensures Snapshot(s, e) != "" ==> Snapshot(s, e) == s.ctx[e.contextRef]
  {
  }

  // Of an event the caller can see, its own snapshot; without one, the last before
  // the event's first place in the session's index that the caller can see, and
  // how many visible events lie from there up to the event.
  lemma ContextAtIs(s: Store, session: string, id: Id, rd: Reader) returns (t: nat, i: nat)
    ensures var ids, e, reply := IndexOf(s, session), EventOf(s, id, rd), ContextAt(s, session, id, rd);
            var own := e.Some? && Snapshot(s, e.value) != "";
            && (reply.NotFound? <==> e.None?)
            && (reply.Exact? <==> own)
            && (own ==> reply == Exact(Snapshot(s, e.value), e.value.timestamp))
            && (reply.NotIndexed? <==> e.Some? && !own && id !in ids)
            && (e.Some? && !own && id in ids ==>
              && t < |ids| && ids[t] == id && id !in ids[..t]
              && (reply.NoSnapshot? <==> forall k :: 0 <= k < t ==> !HasSnapshot(s, ids[k], rd))
              && (reply.Nearest? ==>
                && i < t && LastSnapshot(s, ids[..t], i, rd)
                && var found := EventOf(s, ids[i], rd).value;
                   reply == Nearest(Snapshot(s, found), found.id, VisibleCount(s, ids[i..t], rd), e.value.timestamp))
              && (reply.Nearest? || reply.NoSnapshot?))
  {
    hide EventOf, Snapshot, VisibleCount, WalkBack;
    t, i := 0, 0;
    var ids, e := IndexOf(s, session), EventOf(s, id, rd);
    if e.Some? && Snapshot(s, e.value) == "" && id in ids {
      t := FirstIndex(ids, id);
      i := WalkFindsTheNearest(s, ids[..t], 0, e.value.timestamp, rd);
      if i < t {
        assert ids[..t][..i] == ids[..i];
        CountSplits(s, ids[..t], i, rd);
        assert ids[..t][i..] == ids[i..t];
      }
    }
  }

  lemma {:induction false} CountSplits(s: Store, ids: seq<Id>, i: nat, rd: Reader)
    requires i <= |ids|
    ensures VisibleCount(s, ids, rd) == VisibleCount(s, ids[..i], rd) + VisibleCount(s, ids[i..], rd)
  {
    hide EventOf;
    if i == |ids| {
      assert ids[..i] == ids && ids[i..] == [];
    } else {
      var n := |ids| - 1;
      CountSplits(s, ids[..n], i, rd);
      assert ids[..n][..i] == ids[..i] && ids[..n][i..] == ids[i..][..n - i];
    }
  }

  // How many of the places hold an event the caller can see.
  lemma {:induction false} VisibleCountIs(s: Store, ids: seq<Id>, rd: Reader)
    ensures VisibleCount(s, ids, rd) == |set k | 0 <= k < |ids| && EventOf(s, ids[k], rd).Some?|
  {
    hide EventOf;
    var all := set k | 0 <= k < |ids| && EventOf(s, ids[k], rd).Some?;
    if ids == [] {
      assert all == {};
    } else {
      var n := |ids| - 1;
      VisibleCountIs(s, ids[..n], rd);
      var fewer := set k | 0 <= k < n && EventOf(s, ids[..n][k], rd).Some?;
      assert all == fewer + if EventOf(s, ids[n], rd).Some? then {n} else {};
    }
  }

  // ---- batches and timelines ----

  // Id by id, in the order asked for and as often: the indexed event, if the caller
  // may see it.
  lemma {:induction false} BatchIs(s: Store, a: seq<Id>, id: Id, b: seq<Id>, rd: Reader)
    ensures Batch(s, a + [id] + b, rd)
         == Batch(s, a, rd)
            + (if Indexed(s, id).Some? && Sees(rd, Indexed(s, id).value) then [Indexed(s, id).value] else [])
            + Batch(s, b, rd)
  {
    hide Indexed, Sees;
    if b == [] {
      assert a + [id] + b == a + [id] && (a + [id])[..|a|] == a;
    } else {
      var n := |b| - 1;
      BatchIs(s, a, id, b[..n], rd);
      assert (a + [id] + b)[..|a| + 1 + n] == a + [id] + b[..n] && (a + [id] + b)[|a| + 1 + n] == b[n];
    }
  }

  lemma IndexedIs(s: Store, id: Id) returns (k: nat)
    ensures k < |s.stream| ==> Leads(s, id, k) && Indexed(s, id) == Some(s.stream[k].event)
    ensures k >= |s.stream| ==> Indexed(s, id).None? && forall j: nat :: !Leads(s, id, j)
  {
    k := |s.stream|;
    if id in s.eid {
      k := EntryAtIs(s.stream, s.eid[id]);
      if k < |s.stream| && s.stream[k].event.id != id {
        k := |s.stream|;
      }
    }
  }

  // The events of a session's index that the id index leads to, the caller may
  // see, and that are of the session and kind asked for; in index order.
  function Wanted(s: Store, ids: seq<Id>, session: string, kind: string, rd: Reader): seq<Event> {
    if ids == [] then []
    else
      var n := |ids| - 1;
      var e := Indexed(s, ids[n]);
      Wanted(s, ids[..n], session, kind, rd)
      + if e.Some? && Sees(rd, e.value) && e.value.session == session && (kind == "" || e.value.kind == kind)
        then [e.value] else []
  }

  // A page is a window of them, with their number, and whether more follow.
  lemma TimelineIs(s: Store, session: string, kind: string, offset: nat, limit: nat, rd: Reader)
    ensures var all := Wanted(s, IndexOf(s, session), session, kind, rd);
            var page := Timeline(s, session, kind, offset, limit, rd);
            && page.total == |all| && (page.hasMore <==> offset + limit < |all|)
            && page.events == (if offset >= |all| then []
                               else if offset + limit < |all| then all[offset..offset + limit] else all[offset..])
  {
    hide Batch, Wanted, OfSession, OfKind;
    WantedIs(s, IndexOf(s, session), session, kind, rd);
  }

  lemma {:induction false} WantedIs(s: Store, ids: seq<Id>, session: string, kind: string, rd: Reader)
    ensures var visible := OfSession(Batch(s, ids, rd), session);
            Wanted(s, ids, session, kind, rd) == if kind != "" then OfKind(visible, kind) else visible
  {
    hide Indexed, Sees;
    if ids != [] {
      var n := |ids| - 1;
      var before := Batch(s, ids[..n], rd);
      var e := IfSeen(rd, Indexed(s, ids[n]));
      WantedIs(s, ids[..n], session, kind, rd);
      if e.Some? {
        OfSessionSnoc(before, e.value, session);
        OfKindSnoc(OfSession(before, session), e.value, kind);
      } else {
        assert before + [] == before;
      }
    }
  }

  lemma {:induction false} OfSessionSnoc(events: seq<Event>, e: Event, session: string)
    ensures OfSession(events + [e], session)
         == OfSession(events, session) + if e.session == session then [e] else []
    ensures OfSession(events, session) + [] == OfSession(events, session)
  {
    if events != [] {
      OfSessionSnoc(events[1..], e, session);
      assert (events + [e])[1..] == events[1..] + [e];
    }
  }

  lemma {:induction false} OfKindSnoc(events: seq<Event>, e: Event, kind: string)
    ensures OfKind(events + [e], kind) == OfKind(events, kind) + if e.kind == kind then [e] else []
  {
    if events != [] {
      OfKindSnoc(events[1..], e, kind);
      assert (events + [e])[1..] == events[1..] + [e];
    }
  }

  // ---- summaries ----

  // A duration is given exactly if both ends parse to times of one kind; it is the
  // distance in whole milliseconds, cut toward zero.
  lemma DurationIs(events: seq<Event>)
    ensures var sum := SummaryOf(events);
            && (sum.durationMs.Some? <==>
              && sum.first.Some? && sum.last.Some?
              && sum.first.value.parsed.Some? && sum.last.value.parsed.Some?
              && (sum.first.value.parsed.value.Naive? <==> sum.last.value.parsed.value.Naive?))
            && (sum.durationMs.Some? ==>
              var us, ms := sum.last.value.parsed.value.t - sum.first.value.parsed.value.t, sum.durationMs.value;
              if us >= 0 then 1000 * ms <= us < 1000 * ms + 1000 else 1000 * ms - 1000 < us <= 1000 * ms)
  {
    hide Tally;
    var sum := Tally(events);
    if sum.first.Some? && sum.last.Some? && sum.first.value.parsed.Some? && sum.last.value.parsed.Some? {
      MillisecondsAre(sum.last.value.parsed.value.t - sum.first.value.parsed.value.t);
      hide Milliseconds;
    }
  }

  lemma MillisecondsAre(us: int)
    ensures var ms := Milliseconds(us);
            if us >= 0 then 1000 * ms <= us < 1000 * ms + 1000 else 1000 * ms - 1000 < us <= 1000 * ms
  {
  }

  // The places of the events that count as of this kind: one without a kind counts
  // as "unknown".
  predicate CountsAs(e: Event, kind: string) { e.kind == kind || (kind == "unknown" && e.kind == "") }

  function KindPlaces(events: seq<Event>, kind: string): set<int> {
    set i | 0 <= i < |events| && CountsAs(events[i], kind)
  }

  function OutcomePlaces(events: seq<Event>, outcome: string): set<int> {
    set i | 0 <= i < |events| && events[i].outcome == outcome
  }

  // The figures of a summary are their numbers; nothing is counted under "".
  lemma {:induction false} KindsAre(events: seq<Event>, kind: string)
    ensures CountKind(events, kind) == if kind == "" then 0 else |KindPlaces(events, kind)|
  {
    if events == [] {
      assert KindPlaces(events, kind) == {};
    } else {
      var n := |events| - 1;
      KindsAre(events[..n], kind);
      KindPlacesGrow(events, kind);
    }
    hide KindPlaces;
  }

  lemma KindPlacesGrow(events: seq<Event>, kind: string)
    requires events != []
    ensures var n := |events| - 1;
            |KindPlaces(events, kind)|
            == |KindPlaces(events[..n], kind)|
               + if CountsAs(events[n], kind) then 1 else 0
  {
    hide CountsAs;
    var n := |events| - 1;
    var added := if CountsAs(events[n], kind) then {n} else {};
    assert KindPlaces(events, kind) == KindPlaces(events[..n], kind) + added;
  }

  lemma {:induction false} OutcomesAre(events: seq<Event>, outcome: string)
    ensures CountOutcome(events, outcome) == |OutcomePlaces(events, outcome)|
    ensures "" !in SummaryOf(events).outcomes && "" !in SummaryOf(events).kinds
  {
    if events == [] {
      assert OutcomePlaces(events, outcome) == {};
    } else {
      var n := |events| - 1;
      OutcomesAre(events[..n], outcome);
      var added := if events[n].outcome == outcome then {n} else {};
      assert OutcomePlaces(events, outcome) == OutcomePlaces(events[..n], outcome) + added;
    }
  }
}
