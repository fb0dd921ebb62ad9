/** Scoped reads do not depend on what the caller cannot see: reading a store is
    reading that store with every invisible event erased from it. */
module ReplayIsolation {
  import opened Wrappers
  import opened Principal
  import opened ReplayAuthz
  import opened ReplayReader

  // Stream ids and event ids name one entry each, and the event-id index has all.
  ghost predicate Complete(s: Store) {
    && Distinct(s.stream)
    && forall i :: 0 <= i < |s.stream| ==> Lookup(s.eid, s.stream[i].event.id) == Some(s.stream[i].at)
  }

  ghost predicate Distinct(stream: seq<Entry>) {
    forall i, j :: 0 <= i < j < |stream| ==> stream[i].at != stream[j].at && stream[i].event.id != stream[j].event.id
  }

  // ---- erasing the invisible ----

  function SeenEntries(stream: seq<Entry>, rd: Reader): seq<Entry> {
    if stream == [] then []
    else (if Sees(rd, stream[0].event) then [stream[0]] else []) + SeenEntries(stream[1..], rd)
  }

  predicate Known(s: Store, id: Id, rd: Reader) {
    IfSeen(rd, Indexed(s, id)).Some?
  }

  // Some visible event of the stream has this id.
  predicate Stored(stream: seq<Entry>, id: Id, rd: Reader) {
    exists i | 0 <= i < |stream| :: stream[i].event.id == id && Sees(rd, stream[i].event)
  }

  function SeenIds(s: Store, ids: seq<Id>, rd: Reader): seq<Id> {
    if ids == [] then []
    else
      var n := |ids| - 1;
      SeenIds(s, ids[..n], rd) + if Stored(s.stream, ids[n], rd) then [ids[n]] else []
  }

  predicate Referenced(stream: seq<Entry>, ref: string, rd: Reader) {
    exists i | 0 <= i < |stream| :: stream[i].event.contextRef == ref && Sees(rd, stream[i].event)
  }

  // No stream entry, index entry, session index member or snapshot that only an
  // invisible event accounts for.
  function Erase(s: Store, rd: Reader): Store {
    Store(
      SeenEntries(s.stream, rd),
      map id | id in s.eid && Known(s, id, rd) :: s.eid[id],
      map session | session in s.sessions && SeenIds(s, s.sessions[session], rd) != [] ::
        SeenIds(s, s.sessions[session], rd),
      map ref | ref in s.ctx && Referenced(s.stream, ref, rd) :: s.ctx[ref])
  }

  // ---- finding events ----

  lemma {:induction false} EntryAtIs(stream: seq<Entry>, i: nat)
    requires Distinct(stream) && i < |stream|
    ensures EntryAt(stream, stream[i].at) == Some(stream[i].event)
  {
    if i > 0 {
      EntryAtIs(stream[1..], i - 1);
    }
  }

  lemma {:induction false} EntryAtSome(stream: seq<Entry>, at: nat)
    ensures EntryAt(stream, at).Some? ==>
      exists i :: 0 <= i < |stream| && stream[i].at == at && EntryAt(stream, at) == Some(stream[i].event)
  {
    if stream != [] && stream[0].at != at {
      EntryAtSome(stream[1..], at);
      if EntryAt(stream, at).Some? {
        var i :| 0 <= i < |stream[1..]| && stream[1..][i].at == at && EntryAt(stream, at) == Some(stream[1..][i].event);
        assert stream[i + 1] == stream[1..][i];
      }
    }
  }

  // Event e is in the stream.
  ghost predicate Holds(stream: seq<Entry>, e: Event) {
    exists i :: 0 <= i < |stream| && stream[i].event == e
  }

  lemma {:induction false} RecentIs(stream: seq<Entry>, id: Id, n: nat)
    ensures FindRecent(stream, id, n).Some? ==>
      Holds(stream, FindRecent(stream, id, n).value) && FindRecent(stream, id, n).value.id == id
  {
    if stream != [] && n > 0 && FindRecent(stream, id, n).Some? {
      var last := |stream| - 1;
      if stream[last].event.id != id {
        RecentIs(stream[..last], id, n - 1);
        var i :| 0 <= i < last && stream[..last][i].event == FindRecent(stream, id, n).value;
        assert stream[i].event == FindRecent(stream, id, n).value;
      }
    }
  }

  // With a complete index a read finds an event exactly when the stream holds it
  // and the caller may see it; the scan of recent entries never decides.
  lemma CompleteFinds(s: Store, id: Id, rd: Reader)
    requires Complete(s)
    ensures EventOf(s, id, rd) == IfSeen(rd, Indexed(s, id))
    ensures Indexed(s, id).Some? ==> Indexed(s, id).value.id == id && Holds(s.stream, Indexed(s, id).value)
    ensures forall e :: Holds(s.stream, e) && e.id == id ==> Indexed(s, id) == Some(e)
  {
    forall e | Holds(s.stream, e) && e.id == id ensures Indexed(s, id) == Some(e) {
      var i :| 0 <= i < |s.stream| && s.stream[i].event == e;
      EntryAtIs(s.stream, i);
    }
    RecentIs(s.stream, id, RECENT);
    if Indexed(s, id).Some? {
      EntryAtSome(s.stream, s.eid[id]);
    }
  }

  lemma {:induction false} SeenEntriesAre(stream: seq<Entry>, rd: Reader)
    ensures forall x :: x in SeenEntries(stream, rd) <==> x in stream && Sees(rd, x.event)
    ensures Distinct(stream) ==> Distinct(SeenEntries(stream, rd))
  {
    if stream != [] {
      SeenEntriesAre(stream[1..], rd);
      var tail := SeenEntries(stream[1..], rd);
      assert stream == [stream[0]] + stream[1..];
      if Distinct(stream) {
        assert Distinct(stream[1..]);
        assert forall x :: x in tail ==> x in stream[1..];
        forall x | x in stream[1..] ensures x.at != stream[0].at && x.event.id != stream[0].event.id {
          var i :| 0 <= i < |stream[1..]| && stream[1..][i] == x;
          assert stream[i + 1] == x;
        }
      }
    }
  }

  lemma EraseStaysComplete(s: Store, rd: Reader)
    requires Complete(s)
    ensures Complete(Erase(s, rd))
  {
    var t := Erase(s, rd);
    SeenEntriesAre(s.stream, rd);
    forall i | 0 <= i < |t.stream| ensures Lookup(t.eid, t.stream[i].event.id) == Some(t.stream[i].at) {
      assert t.stream[i] in s.stream;
      var k :| 0 <= k < |s.stream| && s.stream[k] == t.stream[i];
      assert Holds(s.stream, s.stream[k].event);
      CompleteFinds(s, s.stream[k].event.id, rd);
    }
  }

  // The single-event read.
  lemma EventIsolated(s: Store, id: Id, rd: Reader)
    requires Complete(s)
    ensures EventOf(Erase(s, rd), id, rd) == EventOf(s, id, rd)
    ensures IfSeen(rd, Indexed(Erase(s, rd), id)) == IfSeen(rd, Indexed(s, id)) == EventOf(s, id, rd)
  {
    var t := Erase(s, rd);
    EraseStaysComplete(s, rd);
    CompleteFinds(s, id, rd);
    CompleteFinds(t, id, rd);
    HoldsErased(s, rd);
    hide Erase, Complete, Indexed, Sees;
    var here, there := IfSeen(rd, Indexed(s, id)), IfSeen(rd, Indexed(t, id));
    assert here.Some? ==> Holds(t.stream, here.value);
    assert there.Some? ==> Holds(s.stream, there.value);
  }

  lemma HoldsErased(s: Store, rd: Reader)
    ensures forall e :: Holds(Erase(s, rd).stream, e) <==> Holds(s.stream, e) && Sees(rd, e)
  {
    SeenEntriesAre(s.stream, rd);
    var t := SeenEntries(s.stream, rd);
    forall e ensures Holds(t, e) <==> Holds(s.stream, e) && Sees(rd, e) {
      if Holds(t, e) {
        var i :| 0 <= i < |t| && t[i].event == e;
        assert t[i] in s.stream;
      }
      if Holds(s.stream, e) && Sees(rd, e) {
        var i :| 0 <= i < |s.stream| && s.stream[i].event == e;
        assert s.stream[i] in t;
      }
    }
  }

  // ---- reads through the index alone ----

  // A visible entry that its stream id leads to is still the first with that id.
  lemma {:induction false} EntryAtSeen(stream: seq<Entry>, at: nat, rd: Reader)
    requires IfSeen(rd, EntryAt(stream, at)).Some?
    ensures EntryAt(SeenEntries(stream, rd), at) == EntryAt(stream, at)
  {
    if stream[0].at != at {
      EntryAtSeen(stream[1..], at, rd);
      var rest := SeenEntries(stream[1..], rd);
      assert ([stream[0]] + rest)[1..] == rest && [] + rest == rest;
    }
  }

  // An index entry leads to the same visible event, however incomplete the index.
  lemma IndexedIsolated(s: Store, id: Id, rd: Reader)
    ensures IfSeen(rd, Indexed(Erase(s, rd), id)) == IfSeen(rd, Indexed(s, id))
  {
    if Known(s, id, rd) {
      EntryAtSeen(s.stream, s.eid[id], rd);
    }
  }

  lemma {:induction false} BatchIsolated(s: Store, ids: seq<Id>, rd: Reader)
    ensures Batch(Erase(s, rd), SeenIds(s, ids, rd), rd) == Batch(s, ids, rd)
  {
    hide Erase, Indexed, Stored;
    if ids != [] {
      var n := |ids| - 1;
      BatchIsolated(s, ids[..n], rd);
      IndexedIsolated(s, ids[n], rd);
      KnownIsStored(s, ids[n], rd);
      var seen := SeenIds(s, ids[..n], rd);
      if Stored(s.stream, ids[n], rd) {
        assert (seen + [ids[n]])[..|seen|] == seen;
      } else {
        assert seen + [] == seen;
      }
    }
  }

  lemma KnownIsStored(s: Store, id: Id, rd: Reader)
    ensures Known(s, id, rd) ==> Stored(s.stream, id, rd)
  {
    if Known(s, id, rd) {
      EntryAtSome(s.stream, s.eid[id]);
    }
  }

  // A read that answers answers with a visible event of the stream.
  lemma EventIsStored(s: Store, id: Id, rd: Reader)
    ensures var e := EventOf(s, id, rd);
            e.Some? ==> Holds(s.stream, e.value) && Sees(rd, e.value) && Stored(s.stream, id, rd)
  {
    RecentIs(s.stream, id, RECENT);
    if id in s.eid {
      EntryAtSome(s.stream, s.eid[id]);
    }
    var e := EventOf(s, id, rd);
    if e.Some? {
      var i :| 0 <= i < |s.stream| && s.stream[i].event == e.value;
      assert s.stream[i].event.id == id;
    }
  }

  lemma IndexErased(s: Store, session: string, rd: Reader)
    ensures IndexOf(Erase(s, rd), session) == SeenIds(s, IndexOf(s, session), rd)
  {
  }

  lemma SessionIsolated(s: Store, session: string, rd: Reader)
    ensures SessionEvents(Erase(s, rd), session, rd) == SessionEvents(s, session, rd)
  {
    hide Erase, Batch, OfSession;
    IndexErased(s, session, rd);
    BatchIsolated(s, IndexOf(s, session), rd);
  }

  // ---- the context at an event ----

  lemma SnapshotIsolated(s: Store, e: Event, rd: Reader)
    requires Holds(s.stream, e) && Sees(rd, e)
    ensures Snapshot(Erase(s, rd), e) == Snapshot(s, e)
  {
    assert Referenced(s.stream, e.contextRef, rd);
  }

  lemma {:induction false} SeenIdsConcat(s: Store, a: seq<Id>, b: seq<Id>, rd: Reader)
    ensures SeenIds(s, a + b, rd) == SeenIds(s, a, rd) + SeenIds(s, b, rd)
  {
    hide Stored;
    if b == [] {
      assert a + b == a;
    } else {
      var n := |b| - 1;
      SeenIdsConcat(s, a, b[..n], rd);
      assert (a + b)[..|a + b| - 1] == a + b[..n] && (a + b)[|a + b| - 1] == b[n];
    }
  }

  lemma {:induction false} SeenIdsAre(s: Store, ids: seq<Id>, rd: Reader)
    ensures forall x :: x in SeenIds(s, ids, rd) ==> x in ids
  {
    hide Stored;
    if ids != [] {
      SeenIdsAre(s, ids[..|ids| - 1], rd);
    }
  }

  lemma FirstIndexIs(before: seq<Id>, id: Id, after: seq<Id>)
    requires id !in before
    ensures FirstIndex(before + [id] + after, id) == |before|
  {
    var ids := before + [id] + after;
    assert ids[|before|] == id;
    assert forall k :: 0 <= k < |before| ==> ids[k] in before;
  }

  // The target keeps its place among the ids the caller can see.
  lemma SeenIdsIndex(s: Store, ids: seq<Id>, id: Id, rd: Reader)
    requires Stored(s.stream, id, rd)
    ensures var seen := SeenIds(s, ids, rd);
            var at := FirstIndex(ids, id);
            && (FirstIndex(seen, id) == |seen| <==> at == |ids|)
            && (at < |ids| ==> seen[..FirstIndex(seen, id)] == SeenIds(s, ids[..at], rd))
  {
    hide Stored;
    var seen, at := SeenIds(s, ids, rd), FirstIndex(ids, id);
    SeenIdsAre(s, ids, rd);
    if at == |ids| {
      assert id !in ids;
    } else {
      var before, after := ids[..at], ids[at + 1..];
      assert ids == before + [id] + after;
      SeenIdsConcat(s, before + [id], after, rd);
      SeenIdsConcat(s, before, [id], rd);
      SeenIdsAre(s, before, rd);
      SeenIdsOne(s, id, rd);
      FirstIndexIs(SeenIds(s, before, rd), id, SeenIds(s, after, rd));
    }
  }

  lemma SeenIdsOne(s: Store, id: Id, rd: Reader)
    requires Stored(s.stream, id, rd)
    ensures SeenIds(s, [id], rd) == [id]
  {
    assert [id][..0] == [];
  }

  // Erasing the invisible changes no single-event read.
  ghost predicate EventsIsolated(s: Store, rd: Reader) {
    forall id :: EventOf(Erase(s, rd), id, rd) == EventOf(s, id, rd)
  }

  lemma {:induction false} WalkIsolated(s: Store, ids: seq<Id>, steps: nat, at: Option<Residency.Stamp>, rd: Reader)
    requires EventsIsolated(s, rd)
    ensures WalkBack(Erase(s, rd), SeenIds(s, ids, rd), steps, at, rd) == WalkBack(s, ids, steps, at, rd)
  {
    hide Erase, EventOf, Snapshot, Sees, Stored;
    if ids != [] {
      var n := |ids| - 1;
      var seen := SeenIds(s, ids[..n], rd);
      var e := EventOf(s, ids[n], rd);
      assert EventOf(Erase(s, rd), ids[n], rd) == e;
      EventIsStored(s, ids[n], rd);
      var further := if e.Some? then steps + 1 else steps;
      WalkIsolated(s, ids[..n], further, at, rd);
      if e.Some? {
        SnapshotIsolated(s, e.value, rd);
      }
      if Stored(s.stream, ids[n], rd) {
        assert (seen + [ids[n]])[..|seen|] == seen;
      } else {
        assert seen + [] == seen;
      }
    }
  }

  lemma ContextIsolated(s: Store, session: string, id: Id, rd: Reader)
    requires EventsIsolated(s, rd)
    ensures ContextAt(Erase(s, rd), session, id, rd) == ContextAt(s, session, id, rd)
  {
    hide Erase, EventOf, Snapshot, Sees, WalkBack, SeenIds, FirstIndex, Stored;
    assert EventOf(Erase(s, rd), id, rd) == EventOf(s, id, rd);
    EventIsStored(s, id, rd);
    IndexErased(s, session, rd);
    if EventOf(s, id, rd).Some? {
      var e := EventOf(s, id, rd).value;
      SnapshotIsolated(s, e, rd);
      var ids := IndexOf(s, session);
      SeenIdsIndex(s, ids, id, rd);
      var target := FirstIndex(ids, id);
      if target < |ids| {
        WalkIsolated(s, ids[..target], 0, e.timestamp, rd);
      }
    }
  }

  // ---- two stores ----

  // The stores differ only in what the caller cannot see.
  predicate SameSight(a: Store, b: Store, rd: Reader) {
    Erase(a, rd) == Erase(b, rd)
  }

  // Timelines with their counts, and summaries, are the same read from either
  // store, whatever the event-id index has missed.
  lemma SessionReadsAlike(a: Store, b: Store, rd: Reader, session: string, kind: string, offset: nat, limit: nat)
    requires SameSight(a, b, rd)
    ensures Timeline(a, session, kind, offset, limit, rd) == Timeline(b, session, kind, offset, limit, rd)
    ensures SummaryOf(SessionEvents(a, session, rd)) == SummaryOf(SessionEvents(b, session, rd))
  {
    hide Erase, SessionEvents;
    SessionIsolated(a, session, rd);
    SessionIsolated(b, session, rd);
  }

  // So are batches, request order and duplicates included.
  lemma {:induction false} BatchesAlike(a: Store, b: Store, ids: seq<Id>, rd: Reader)
    requires SameSight(a, b, rd)
    ensures Batch(a, ids, rd) == Batch(b, ids, rd)
  {
    hide Erase, Indexed;
    if ids != [] {
      BatchesAlike(a, b, ids[..|ids| - 1], rd);
      IndexedIsolated(a, ids[|ids| - 1], rd);
      IndexedIsolated(b, ids[|ids| - 1], rd);
    }
  }

  // Single-event reads may fall back on the newest entries; they are safe where
  // the invisible push nothing visible and unindexed out of those.
  ghost predicate Sheltered(s: Store, rd: Reader) {
    UniqueIds(s.stream) && forall p :: 0 <= p < |s.stream| ==> !PushedOut(s, p, rd)
  }

  // As where the event-id index is complete.
  lemma CompleteIsSheltered(s: Store, rd: Reader)
    requires Complete(s)
    ensures Sheltered(s, rd)
  {
    forall p | 0 <= p < |s.stream| ensures Indexed(s, s.stream[p].event.id).Some? {
      EntryAtIs(s.stream, p);
    }
  }

  ghost predicate Alike(a: Store, b: Store, rd: Reader) {
    Sheltered(a, rd) && Sheltered(b, rd) && SameSight(a, b, rd)
  }

  lemma EventsAlike(a: Store, b: Store, id: Id, rd: Reader)
    requires Alike(a, b, rd)
    ensures EventOf(a, id, rd) == EventOf(b, id, rd)
  {
    EventReadsIsolatedIff(a, rd);
    EventReadsIsolatedIff(b, rd);
    hide Erase, EventOf, PushedOut;
    assert EventOf(Erase(a, rd), id, rd) == EventOf(a, id, rd);
    assert EventOf(Erase(b, rd), id, rd) == EventOf(b, id, rd);
  }

  // Single events, and contexts with their gap counts, are then the same from
  // either store, too.
  lemma ReadsAlike(a: Store, b: Store, rd: Reader, session: string, id: Id)
    requires Alike(a, b, rd)
    ensures EventOf(a, id, rd) == EventOf(b, id, rd)
    ensures ContextAt(a, session, id, rd) == ContextAt(b, session, id, rd)
  {
    EventReadsIsolatedIff(a, rd);
    EventReadsIsolatedIff(b, rd);
    hide Erase, ContextAt, PushedOut, EventOf;
    EventsAlike(a, b, id, rd);
    ContextIsolated(a, session, id, rd);
    ContextIsolated(b, session, id, rd);
  }

  // ---- erasing twice ----

  lemma {:induction false} SeenEntriesTwice(stream: seq<Entry>, rd: Reader)
    requires forall i :: 0 <= i < |stream| ==> Sees(rd, stream[i].event)
    ensures SeenEntries(stream, rd) == stream
  {
    hide Sees;
    if stream != [] {
      SeenEntriesTwice(stream[1..], rd);
    }
  }

  lemma StoredHolds(stream: seq<Entry>, id: Id, rd: Reader)
    ensures Stored(stream, id, rd) <==> exists e :: Holds(stream, e) && e.id == id && Sees(rd, e)
  {
    hide Sees;
    if Stored(stream, id, rd) {
      var i :| 0 <= i < |stream| && stream[i].event.id == id && Sees(rd, stream[i].event);
      assert Holds(stream, stream[i].event);
    }
  }

  lemma StoredErased(s: Store, id: Id, rd: Reader)
    ensures Stored(SeenEntries(s.stream, rd), id, rd) <==> Stored(s.stream, id, rd)
  {
    HoldsErased(s, rd);
    StoredHolds(s.stream, id, rd);
    StoredHolds(SeenEntries(s.stream, rd), id, rd);
    assert Erase(s, rd).stream == SeenEntries(s.stream, rd);
    hide Stored, Holds, Sees, SeenEntries, Erase;
  }

  lemma {:induction false} SeenIdsTwice(s: Store, ids: seq<Id>, rd: Reader)
    ensures SeenIds(Erase(s, rd), SeenIds(s, ids, rd), rd) == SeenIds(s, ids, rd)
  {
    hide Stored;
    if ids != [] {
      var n := |ids| - 1;
      var seen := SeenIds(s, ids[..n], rd);
      SeenIdsTwice(s, ids[..n], rd);
      StoredErased(s, ids[n], rd);
      if Stored(s.stream, ids[n], rd) {
        assert (seen + [ids[n]])[..|seen|] == seen;
      } else {
        assert seen + [] == seen;
      }
    }
  }

  lemma ReferencedHolds(stream: seq<Entry>, ref: string, rd: Reader)
    ensures Referenced(stream, ref, rd) <==> exists e :: Holds(stream, e) && e.contextRef == ref && Sees(rd, e)
  {
    hide Sees;
    if Referenced(stream, ref, rd) {
      var i :| 0 <= i < |stream| && stream[i].event.contextRef == ref && Sees(rd, stream[i].event);
      assert Holds(stream, stream[i].event);
    }
  }

  lemma ReferencedErased(s: Store, ref: string, rd: Reader)
    ensures Referenced(SeenEntries(s.stream, rd), ref, rd) <==> Referenced(s.stream, ref, rd)
  {
    HoldsErased(s, rd);
    ReferencedHolds(s.stream, ref, rd);
    ReferencedHolds(SeenEntries(s.stream, rd), ref, rd);
    assert Erase(s, rd).stream == SeenEntries(s.stream, rd);
    hide Referenced, Holds, Sees, SeenEntries, Erase;
  }

  // A store and its erasure differ only in what the caller cannot see.
  lemma EraseAgain(s: Store, rd: Reader)
    ensures SameSight(Erase(s, rd), s, rd)
  {
    hide SeenEntries, SeenIds, Known, Referenced;
    StreamErasedAgain(s, rd);
    forall id ensures Known(Erase(s, rd), id, rd) <==> Known(s, id, rd) {
      KnownErased(s, id, rd);
    }
    forall ref ensures Referenced(Erase(s, rd).stream, ref, rd) <==> Referenced(s.stream, ref, rd) {
      ReferencedErased(s, ref, rd);
    }
    forall session
      ensures SeenIds(Erase(s, rd), IndexOf(Erase(s, rd), session), rd) == SeenIds(s, IndexOf(s, session), rd)
    {
      IndexErased(s, session, rd);
      SeenIdsTwice(s, IndexOf(s, session), rd);
    }
    SessionsErasedAlike(s, Erase(s, rd), rd);
  }

  lemma StreamErasedAgain(s: Store, rd: Reader)
    ensures SeenEntries(Erase(s, rd).stream, rd) == Erase(s, rd).stream == SeenEntries(s.stream, rd)
  {
    var seen := SeenEntries(s.stream, rd);
    SeenEntriesAre(s.stream, rd);
    forall i | 0 <= i < |seen| ensures Sees(rd, seen[i].event) {
      assert seen[i] in seen;
    }
    SeenEntriesTwice(seen, rd);
  }

  lemma KnownErased(s: Store, id: Id, rd: Reader)
    ensures Known(Erase(s, rd), id, rd) <==> Known(s, id, rd)
  {
    hide Erase, Indexed;
    IndexedIsolated(s, id, rd);
  }

  lemma SessionsErasedAlike(s: Store, t: Store, rd: Reader)
    requires forall session :: SeenIds(t, IndexOf(t, session), rd) == SeenIds(s, IndexOf(s, session), rd)
    ensures Erase(t, rd).sessions == Erase(s, rd).sessions
  {
    hide SeenIds;
    var a, b := Erase(t, rd).sessions, Erase(s, rd).sessions;
    NoneSeenInNone(t, rd);
    NoneSeenInNone(s, rd);
    forall session ensures session in a <==> session in b
      ensures session in a ==> a[session] == b[session]
    {
      assert SeenIds(t, IndexOf(t, session), rd) == SeenIds(s, IndexOf(s, session), rd);
    }
  }

  // ---- what happens out of sight ----

  // emit: the event joins the stream and the indexes; its score decides its
  // place in the session's.
  function Emitted(s: Store, entry: Entry, place: nat): Store {
    var e, ids := entry.event, IndexOf(s, entry.event.session);
    var k := if place < |ids| then place else |ids|;
    Store(s.stream + [entry], s.eid[e.id := entry.at], s.sessions[e.session := ids[..k] + [e.id] + ids[k..]], s.ctx)
  }

  // A stream id and an event id never used before.
  ghost predicate Fresh(s: Store, entry: Entry) {
    && (forall i :: 0 <= i < |s.stream| ==> s.stream[i].at != entry.at && s.stream[i].event.id != entry.event.id)
    && (forall id :: id in s.eid ==> id != entry.event.id && s.eid[id] != entry.at)
    && (forall session :: session in s.sessions ==> entry.event.id !in s.sessions[session])
  }

  // An event the caller may not see can be emitted, anywhere in any session,
  // without one of the caller's reads changing.
  lemma InvisibleEmitIsUnseen(s: Store, entry: Entry, place: nat, rd: Reader)
    requires Fresh(s, entry) && !Sees(rd, entry.event)
    ensures SameSight(s, Emitted(s, entry, place), rd)
    ensures Complete(s) ==> Alike(s, Emitted(s, entry, place), rd)
  {
    var t := Emitted(s, entry, place);
    EmitErasesStream(s.stream, entry, rd);
    forall id ensures Known(t, id, rd) <==> Known(s, id, rd) {
      EmitKeepsKnown(s, entry, place, id, rd);
    }
    EmitKeepsStored(s.stream, entry, rd);
    forall session ensures SeenIds(t, IndexOf(t, session), rd) == SeenIds(s, IndexOf(s, session), rd) {
      EmitKeepsIndex(s, entry, place, session, rd);
      SameSeenIds(s, t, IndexOf(s, session), rd);
    }
    EmitErases(s, t, rd);
    if Complete(s) {
      EmitStaysComplete(s, entry, place);
      CompleteIsSheltered(s, rd);
      CompleteIsSheltered(t, rd);
    }
  }

  lemma EmitErasesStream(stream: seq<Entry>, entry: Entry, rd: Reader)
    requires !Sees(rd, entry.event)
    ensures SeenEntries(stream + [entry], rd) == SeenEntries(stream, rd)
    ensures forall ref :: Referenced(stream + [entry], ref, rd) <==> Referenced(stream, ref, rd)
  {
    SeenEntriesConcat(stream, entry, rd);
    forall ref | Referenced(stream, ref, rd) ensures Referenced(stream + [entry], ref, rd) {
      var i :| 0 <= i < |stream| && stream[i].event.contextRef == ref && Sees(rd, stream[i].event);
      assert (stream + [entry])[i] == stream[i];
    }
  }

  lemma {:induction false} SeenEntriesConcat(stream: seq<Entry>, entry: Entry, rd: Reader)
    requires !Sees(rd, entry.event)
    ensures SeenEntries(stream + [entry], rd) == SeenEntries(stream, rd)
  {
    hide Sees;
    if stream != [] {
      SeenEntriesConcat(stream[1..], entry, rd);
      assert (stream + [entry])[1..] == stream[1..] + [entry];
    }
  }

  lemma {:induction false} EntryAtMore(stream: seq<Entry>, entry: Entry, at: nat)
    requires at != entry.at
    ensures EntryAt(stream + [entry], at) == EntryAt(stream, at)
  {
    if stream != [] {
      EntryAtMore(stream[1..], entry, at);
      assert (stream + [entry])[1..] == stream[1..] + [entry];
    }
  }

  lemma {:induction false} EntryAtLast(stream: seq<Entry>, entry: Entry)
    requires forall i :: 0 <= i < |stream| ==> stream[i].at != entry.at
    ensures EntryAt(stream + [entry], entry.at) == Some(entry.event)
  {
    if stream != [] {
      EntryAtLast(stream[1..], entry);
      assert (stream + [entry])[1..] == stream[1..] + [entry];
    }
  }

  lemma EmitKeepsKnown(s: Store, entry: Entry, place: nat, id: Id, rd: Reader)
    requires Fresh(s, entry) && !Sees(rd, entry.event)
    ensures Known(Emitted(s, entry, place), id, rd) <==> Known(s, id, rd)
  {
    if id == entry.event.id {
      EntryAtLast(s.stream, entry);
    } else if id in s.eid {
      EntryAtMore(s.stream, entry, s.eid[id]);
    }
  }

  lemma EmitStaysComplete(s: Store, entry: Entry, place: nat)
    requires Complete(s) && Fresh(s, entry)
    ensures Complete(Emitted(s, entry, place))
  {
  }

  lemma EmitKeepsIndex(s: Store, entry: Entry, place: nat, session: string, rd: Reader)
    requires Fresh(s, entry) && !Sees(rd, entry.event)
    ensures var t := Emitted(s, entry, place);
            SeenIds(t, IndexOf(t, session), rd) == SeenIds(t, IndexOf(s, session), rd)
  {
    var t, id, ids := Emitted(s, entry, place), entry.event.id, IndexOf(s, session);
    EmitKeepsStored(s.stream, entry, rd);
    FreshIsNotStored(s, entry, rd);
    hide Stored;
    if session == entry.event.session {
      var k := if place < |ids| then place else |ids|;
      assert [id][..0] == [] && SeenIds(t, [id], rd) == [];
      SeenIdsConcat(t, ids[..k] + [id], ids[k..], rd);
      SeenIdsConcat(t, ids[..k], [id], rd);
      SeenIdsConcat(t, ids[..k], ids[k..], rd);
      assert ids == ids[..k] + ids[k..] && SeenIds(t, ids[..k], rd) + [] == SeenIds(t, ids[..k], rd);
    }
  }

  lemma FreshIsNotStored(s: Store, entry: Entry, rd: Reader)
    requires Fresh(s, entry)
    ensures !Stored(s.stream, entry.event.id, rd)
  {
  }

  lemma EmitKeepsStored(stream: seq<Entry>, entry: Entry, rd: Reader)
    requires !Sees(rd, entry.event)
    ensures forall id :: Stored(stream + [entry], id, rd) <==> Stored(stream, id, rd)
  {
    forall id | Stored(stream, id, rd) ensures Stored(stream + [entry], id, rd) {
      var i :| 0 <= i < |stream| && stream[i].event.id == id && Sees(rd, stream[i].event);
      assert (stream + [entry])[i] == stream[i];
    }
  }

  lemma {:induction false} SameSeenIds(s: Store, t: Store, ids: seq<Id>, rd: Reader)
    requires forall id :: Stored(t.stream, id, rd) <==> Stored(s.stream, id, rd)
    ensures SeenIds(t, ids, rd) == SeenIds(s, ids, rd)
  {
    hide Stored;
    if ids != [] {
      SameSeenIds(s, t, ids[..|ids| - 1], rd);
    }
  }

  lemma EmitErases(s: Store, t: Store, rd: Reader)
    requires SeenEntries(t.stream, rd) == SeenEntries(s.stream, rd) && t.ctx == s.ctx
    requires forall ref :: Referenced(t.stream, ref, rd) <==> Referenced(s.stream, ref, rd)
    requires forall id :: Known(t, id, rd) <==> Known(s, id, rd)
    requires forall id :: id in s.eid ==> id in t.eid && t.eid[id] == s.eid[id]
    requires forall session :: SeenIds(t, IndexOf(t, session), rd) == SeenIds(s, IndexOf(s, session), rd)
    ensures Erase(t, rd) == Erase(s, rd)
  {
    hide Referenced, SeenIds;
    var a, b := Erase(t, rd), Erase(s, rd);
    assert a.eid == b.eid by {
      forall id | Known(s, id, rd) ensures id in s.eid {}
    }
    forall session ensures session in a.sessions <==> session in b.sessions
      ensures session in a.sessions ==> a.sessions[session] == b.sessions[session] {
      NoneSeenInNone(t, rd);
      NoneSeenInNone(s, rd);
      assert SeenIds(t, IndexOf(t, session), rd) == SeenIds(s, IndexOf(s, session), rd);
    }
    assert a.sessions == b.sessions;
    assert a.ctx == b.ctx;
  }

  lemma NoneSeenInNone(s: Store, rd: Reader)
    ensures SeenIds(s, [], rd) == []
  {
  }

  // ---- why the index must be complete ----

  lemma {:induction false} RecentWindow(stream: seq<Entry>, p: nat, n: nat)
    requires p < |stream| && forall i :: 0 <= i < |stream| && i != p ==> stream[i].event.id != stream[p].event.id
    ensures FindRecent(stream, stream[p].event.id, n) == if |stream| - p <= n then Some(stream[p].event) else None
  {
    if n > 0 && p < |stream| - 1 {
      RecentWindow(stream[..|stream| - 1], p, n - 1);
    }
  }

  // A visible event the index does not know is found exactly while fewer than
  // 2000 entries, of anyone's, came after it.
  lemma UnindexedIsFoundIff(s: Store, p: nat, rd: Reader)
    requires p < |s.stream| && Sees(rd, s.stream[p].event) && Indexed(s, s.stream[p].event.id).None?
    requires forall i :: 0 <= i < |s.stream| && i != p ==> s.stream[i].event.id != s.stream[p].event.id
    ensures EventOf(s, s.stream[p].event.id, rd).Some? <==> |s.stream| - p <= RECENT
  {
    RecentWindow(s.stream, p, RECENT);
  }

  // How many entries, from p on, the reader sees.
  function SeenFrom(stream: seq<Entry>, p: nat, rd: Reader): nat
    requires p <= |stream|
  {
    |SeenEntries(stream[p..], rd)|
  }

  // Invisible entries push this event out of the window: it is visible and not
  // indexed, and lies in the newest 2000 of what the reader sees, but not of all.
  predicate PushedOut(s: Store, p: nat, rd: Reader)
    requires p < |s.stream|
  {
    && Sees(rd, s.stream[p].event) && Indexed(s, s.stream[p].event.id).None?
    && |s.stream| - p > RECENT && SeenFrom(s.stream, p, rd) <= RECENT
  }

  ghost predicate UniqueIds(stream: seq<Entry>) {
    forall i, j :: 0 <= i < j < |stream| ==> stream[i].event.id != stream[j].event.id
  }

  lemma {:induction false} SeenEntriesSplit(stream: seq<Entry>, p: nat, rd: Reader)
    requires p <= |stream|
    ensures SeenEntries(stream, rd) == SeenEntries(stream[..p], rd) + SeenEntries(stream[p..], rd)
  {
    hide Sees;
    if p == 0 {
      assert stream[0..] == stream;
    } else {
      SeenEntriesSplit(stream[1..], p - 1, rd);
      assert stream[..p][1..] == stream[1..][..p - 1] && stream[1..][p - 1..] == stream[p..];
    }
  }

  lemma {:induction false} SeenIdsUnique(stream: seq<Entry>, rd: Reader)
    requires UniqueIds(stream)
    ensures UniqueIds(SeenEntries(stream, rd))
  {
    hide Sees;
    if stream != [] {
      SeenIdsUnique(stream[1..], rd);
      SeenEntriesAre(stream[1..], rd);
      var rest := SeenEntries(stream[1..], rd);
      forall i | 0 <= i < |rest| ensures rest[i].event.id != stream[0].event.id {
        assert rest[i] in stream[1..];
        var k :| 0 <= k < |stream[1..]| && stream[1..][k] == rest[i];
        assert stream[k + 1] == rest[i];
      }
    }
  }

  // Where the window finds a visible event once the invisible are erased.
  lemma ErasedWindow(stream: seq<Entry>, p: nat, rd: Reader)
    requires p < |stream| && Sees(rd, stream[p].event) && UniqueIds(stream)
    ensures FindRecent(SeenEntries(stream, rd), stream[p].event.id, RECENT)
         == if SeenFrom(stream, p, rd) <= RECENT then Some(stream[p].event) else None
  {
    var seen, q := SeenEntries(stream, rd), |SeenEntries(stream[..p], rd)|;
    SeenEntriesSplit(stream, p, rd);
    SeenIdsUnique(stream, rd);
    assert SeenEntries(stream[p..], rd)[0] == stream[p];
    assert seen[q] == stream[p] && |seen| - q == SeenFrom(stream, p, rd);
    RecentWindow(seen, q, RECENT);
  }

  // The read of one event of the stream.
  lemma StoredEventIsolatedIff(s: Store, p: nat, rd: Reader)
    requires p < |s.stream| && UniqueIds(s.stream)
    ensures EventOf(Erase(s, rd), s.stream[p].event.id, rd) == EventOf(s, s.stream[p].event.id, rd)
            <==> !PushedOut(s, p, rd)
  {
    var id := s.stream[p].event.id;
    IndexedIsolated(s, id, rd);
    RecentWindow(s.stream, p, RECENT);
    IndexedIsStored(s, p);
    if Sees(rd, s.stream[p].event) {
      ErasedWindow(s.stream, p, rd);
      ErasedIndex(s, id, rd);
      SeenIsFewer(s.stream[p..], rd);
    } else {
      InvisibleIsGone(s, p, rd);
    }
  }

  lemma {:induction false} SeenIsFewer(stream: seq<Entry>, rd: Reader)
    ensures |SeenEntries(stream, rd)| <= |stream|
  {
    if stream != [] {
      SeenIsFewer(stream[1..], rd);
    }
  }

  lemma IndexedIsStored(s: Store, p: nat)
    requires p < |s.stream| && UniqueIds(s.stream)
    ensures Indexed(s, s.stream[p].event.id) in {None, Some(s.stream[p].event)}
  {
    var id := s.stream[p].event.id;
    if Indexed(s, id).Some? {
      EntryAtSome(s.stream, s.eid[id]);
    }
  }

  lemma ErasedIndex(s: Store, id: Id, rd: Reader)
    ensures Indexed(s, id).None? ==> Indexed(Erase(s, rd), id).None?
  {
  }

  lemma InvisibleIsGone(s: Store, p: nat, rd: Reader)
    requires p < |s.stream| && UniqueIds(s.stream) && !Sees(rd, s.stream[p].event)
    ensures EventOf(Erase(s, rd), s.stream[p].event.id, rd).None? && EventOf(s, s.stream[p].event.id, rd).None?
  {
    var t, id := Erase(s, rd), s.stream[p].event.id;
    SeenEntriesAre(s.stream, rd);
    RecentIs(t.stream, id, RECENT);
    RecentIs(s.stream, id, RECENT);
    HoldsErased(s, rd);
    IndexedIsStored(s, p);
    IndexedIsolated(s, id, rd);
    OneHolder(s.stream, p);
  }

  lemma OneHolder(stream: seq<Entry>, p: nat)
    requires p < |stream| && UniqueIds(stream)
    ensures forall e :: Holds(stream, e) && e.id == stream[p].event.id ==> e == stream[p].event
  {
  }

  // Exactly when invisible events decide no single-event read, however much the
  // index has missed: when they push no event out of the recent window.
  lemma EventReadsIsolatedIff(s: Store, rd: Reader)
    requires UniqueIds(s.stream)
    ensures (forall id :: EventOf(Erase(s, rd), id, rd) == EventOf(s, id, rd))
            <==> forall p :: 0 <= p < |s.stream| ==> !PushedOut(s, p, rd)
  {
    hide PushedOut, Erase, EventOf;
    forall p | 0 <= p < |s.stream|
      ensures EventOf(Erase(s, rd), s.stream[p].event.id, rd) == EventOf(s, s.stream[p].event.id, rd)
              <==> !PushedOut(s, p, rd)
    {
      StoredEventIsolatedIff(s, p, rd);
    }
    forall id | forall p :: 0 <= p < |s.stream| ==> s.stream[p].event.id != id
      ensures EventOf(Erase(s, rd), id, rd) == EventOf(s, id, rd)
    {
      AbsentIsAbsent(s, id, rd);
    }
  }

  // Nor any context: with as much as one event pushed out, its context reads as
  // not found though erasing the invisible would show it.
  lemma ContextsIsolatedIff(s: Store, rd: Reader)
    requires UniqueIds(s.stream)
    ensures (forall session, id :: ContextAt(Erase(s, rd), session, id, rd) == ContextAt(s, session, id, rd))
            <==> forall p :: 0 <= p < |s.stream| ==> !PushedOut(s, p, rd)
  {
    EventReadsIsolatedIff(s, rd);
    hide PushedOut, Erase, EventOf, ContextAt;
    if forall p :: 0 <= p < |s.stream| ==> !PushedOut(s, p, rd) {
      forall session, id ensures ContextAt(Erase(s, rd), session, id, rd) == ContextAt(s, session, id, rd) {
        ContextIsolated(s, session, id, rd);
      }
    } else {
      var p :| 0 <= p < |s.stream| && PushedOut(s, p, rd);
      PushedOutIsHidden(s, p, rd, "");
    }
  }

  lemma PushedOutIsHidden(s: Store, p: nat, rd: Reader, session: string)
    requires p < |s.stream| && UniqueIds(s.stream) && PushedOut(s, p, rd)
    ensures var id := s.stream[p].event.id;
            && EventOf(s, id, rd).None? && EventOf(Erase(s, rd), id, rd).Some?
            && ContextAt(Erase(s, rd), session, id, rd) != ContextAt(s, session, id, rd)
  {
    StoredEventIsolatedIff(s, p, rd);
    RecentWindow(s.stream, p, RECENT);
    FoundIsAnswered(Erase(s, rd), session, s.stream[p].event.id, rd);
    hide Erase, FindRecent, WalkBack;
  }

  lemma FoundIsAnswered(s: Store, session: string, id: Id, rd: Reader)
    requires EventOf(s, id, rd).Some?
    ensures !ContextAt(s, session, id, rd).NotFound?
  {
    hide EventOf, WalkBack;
    var ids := IndexOf(s, session);
    var i := WalkFindsTheNearest(s, ids[..FirstIndex(ids, id)], 0, EventOf(s, id, rd).value.timestamp, rd);
  }

  lemma AbsentIsAbsent(s: Store, id: Id, rd: Reader)
    requires forall p :: 0 <= p < |s.stream| ==> s.stream[p].event.id != id
    ensures EventOf(Erase(s, rd), id, rd).None? && EventOf(s, id, rd).None?
  {
    var t := Erase(s, rd);
    RecentIs(s.stream, id, RECENT);
    RecentIs(t.stream, id, RECENT);
    HoldsErased(s, rd);
    if id in s.eid {
      EntryAtSome(s.stream, s.eid[id]);
    }
  }

  // So 2000 invisible entries behind it hide it, and erasing them shows it.
  lemma UnindexedReadLeaks(s: Store, rd: Reader)
    requires |s.stream| == RECENT + 1 && s.eid == map[] && Sees(rd, s.stream[0].event)
    requires forall i :: 1 <= i < |s.stream| ==>
      !Sees(rd, s.stream[i].event) && s.stream[i].event.id != s.stream[0].event.id
    ensures EventOf(s, s.stream[0].event.id, rd).None?
    ensures EventOf(Erase(s, rd), s.stream[0].event.id, rd) == Some(s.stream[0].event)
  {
    UnindexedIsFoundIff(s, 0, rd);
    NoneSeen(s.stream[1..], rd);
    RecentWindow([s.stream[0]], 0, RECENT);
    assert SeenEntries(s.stream, rd) == [s.stream[0]];
  }

  lemma {:induction false} NoneSeen(stream: seq<Entry>, rd: Reader)
    requires forall i :: 0 <= i < |stream| ==> !Sees(rd, stream[i].event)
    ensures SeenEntries(stream, rd) == []
  {
    if stream != [] {
      NoneSeen(stream[1..], rd);
    }
  }
}
