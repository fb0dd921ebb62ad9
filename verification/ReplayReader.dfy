/** replay/reader.py: the scoped reads. Each function says what a caller reads;
    the method of the same purpose is the reader's own loop. */
module ReplayReader {
  import opened Wrappers
  import opened Principal
  import opened ReplayAuthz
  import opened Residency

  type Id = string

  datatype Link = Link(target: Id, confidence: Option<real>)

  datatype Event = Event(
    id: Id,
    workspace: string,
    member: string,
    session: string,
    agent: string,
    kind: string,
    timestamp: Option<Stamp>,
    outcome: string,
    contextRef: string,
    links: seq<Link>)

  // A stream entry and the stream id it was added under.
  datatype Entry = Entry(at: nat, event: Event)

  // The stream oldest first, rp:eid, rp:session_idx in score order, and rp:ctx.
  datatype Store = Store(
    stream: seq<Entry>,
    eid: map<Id, nat>,
    sessions: map<string, seq<Id>>,
    ctx: map<string, string>)

  datatype Reader = Reader(deployment: Deployment, scope: Scope)

  const RECENT := 2000

  predicate Sees(rd: Reader, e: Event) {
    Visible(rd.deployment, e.workspace, e.member, Some(rd.scope))
  }

  function IfSeen(rd: Reader, e: Option<Event>): Option<Event> {
    if e.Some? && Sees(rd, e.value) then e else None
  }

  // ---- single events ----

  // XRANGE at at: the entry with that stream id.
  function EntryAt(stream: seq<Entry>, at: nat): Option<Event> {
    if stream == [] then None
    else if stream[0].at == at then Some(stream[0].event)
    else EntryAt(stream[1..], at)
  }

  // The newest entry with this event id among the last n.
  function FindRecent(stream: seq<Entry>, id: Id, n: nat): Option<Event> {
    if stream == [] || n == 0 then None
    else
      var last := stream[|stream| - 1].event;
      if last.id == id then Some(last) else FindRecent(stream[..|stream| - 1], id, n - 1)
  }

  // What the event-id index leads to, if it leads to that event.
  function Indexed(s: Store, id: Id): Option<Event> {
    if id !in s.eid then None
    else
      var e := EntryAt(s.stream, s.eid[id]);
      if e.Some? && e.value.id == id then e else None
  }

  function EventOf(s: Store, id: Id, rd: Reader): Option<Event> {
    IfSeen(rd, if Indexed(s, id).Some? then Indexed(s, id) else FindRecent(s.stream, id, RECENT))
  }

  method GetEvent(s: Store, id: Id, rd: Reader) returns (e: Option<Event>)
    ensures e == EventOf(s, id, rd)
  {
    if id in s.eid {
      var entry := EntryAt(s.stream, s.eid[id]);
      if entry.Some? && entry.value.id == id {
        return IfSeen(rd, entry);
      }
    }
    var n: nat := |s.stream|;
    assert s.stream[..n] == s.stream;
    while n > 0 && |s.stream| - n < RECENT
      invariant n <= |s.stream| && |s.stream| - n <= RECENT
      invariant FindRecent(s.stream, id, RECENT) == FindRecent(s.stream[..n], id, RECENT - (|s.stream| - n))
    {
      var entry := s.stream[n - 1].event;
      assert s.stream[..n][..n - 1] == s.stream[..n - 1];
      if entry.id == id {
        return IfSeen(rd, Some(entry));
      }
      n := n - 1;
    }
    return None;
  }

  // ---- batches ----

  function Batch(s: Store, ids: seq<Id>, rd: Reader): seq<Event> {
    if ids == [] then []
    else
      var n := |ids| - 1;
      var e := IfSeen(rd, Indexed(s, ids[n]));
      Batch(s, ids[..n], rd) + if e.Some? then [e.value] else []
  }

  method GetEventBatch(s: Store, ids: seq<Id>, rd: Reader) returns (events: seq<Event>)
    ensures events == Batch(s, ids, rd)
  {
    var found: map<Id, Event> := map[];
    var asked: set<Id> := {};
    for i := 0 to |ids|
      invariant asked == set k | 0 <= k < i :: ids[k]
      invariant forall id :: id in found <==> id in asked && IfSeen(rd, Indexed(s, id)).Some?
      invariant forall id :: id in found ==> found[id] == Indexed(s, id).value
    {
      if ids[i] !in asked {
        asked := asked + {ids[i]};
        var e := IfSeen(rd, Indexed(s, ids[i]));
        if e.Some? {
          found := found[ids[i] := e.value];
        }
      }
    }
    events := [];
    for i := 0 to |ids|
      invariant events == Batch(s, ids[..i], rd)
    {
      assert ids[..i + 1][..i] == ids[..i];
      assert ids[i] in asked;
      if ids[i] in found {
        events := events + [found[ids[i]]];
      }
    }
    assert ids[..|ids|] == ids;
  }

  // ---- sessions ----

  function IndexOf(s: Store, session: string): seq<Id> {
    if session in s.sessions then s.sessions[session] else []
  }

  function OfSession(events: seq<Event>, session: string): seq<Event> {
    if events == [] then []
    else (if events[0].session == session then [events[0]] else []) + OfSession(events[1..], session)
  }

  function OfKind(events: seq<Event>, kind: string): seq<Event> {
    if events == [] then []
    else (if events[0].kind == kind then [events[0]] else []) + OfKind(events[1..], kind)
  }

  function SessionEvents(s: Store, session: string, rd: Reader): seq<Event> {
    OfSession(Batch(s, IndexOf(s, session), rd), session)
  }

  datatype Page = Page(events: seq<Event>, total: nat, hasMore: bool)

  function Slice(events: seq<Event>, offset: nat, limit: nat): seq<Event> {
    var from := if offset < |events| then offset else |events|;
    events[from..if offset + limit < |events| then offset + limit else |events|]
  }

  // Filter first, then page; an empty kind is no filter.
  function Timeline(s: Store, session: string, kind: string, offset: nat, limit: nat, rd: Reader): Page {
    var visible := SessionEvents(s, session, rd);
    var wanted := if kind != "" then OfKind(visible, kind) else visible;
    Page(Slice(wanted, offset, limit), |wanted|, offset + limit < |wanted|)
  }

  method GetSessionTimeline(s: Store, session: string, kind: string, offset: nat, limit: nat, rd: Reader)
    returns (page: Page)
    ensures page == Timeline(s, session, kind, offset, limit, rd)
  {
    var hydrated := GetEventBatch(s, IndexOf(s, session), rd);
    var visible := OfSession(hydrated, session);
    if kind != "" {
      visible := OfKind(visible, kind);
    }
    return Page(Slice(visible, offset, limit), |visible|, offset + limit < |visible|);
  }

  lemma SliceIs(events: seq<Event>, offset: nat, limit: nat)
    ensures var page := Slice(events, offset, limit);
            && (forall i :: 0 <= i < |page| ==> page[i] == events[offset + i])
            && |page| == (if offset >= |events| then 0
                          else if offset + limit < |events| then limit else |events| - offset)
  {
  }

  // The pages at consecutive offsets are the visible events, each once, in order.
  lemma PagesAreTheTimeline(s: Store, session: string, kind: string, offset: nat, limit: nat, rd: Reader)
    ensures var all := Timeline(s, session, kind, 0, Timeline(s, session, kind, 0, 0, rd).total, rd).events;
            var page := Timeline(s, session, kind, offset, limit, rd);
            && page.total == |all|
            && (forall i :: 0 <= i < |page.events| ==> page.events[i] == all[offset + i])
            && |page.events| == (if offset >= |all| then 0 else if page.hasMore then limit else |all| - offset)
            && (page.hasMore <==> offset + limit < |all|)
  {
    hide SessionEvents, OfKind, Slice;
    var visible := SessionEvents(s, session, rd);
    var wanted := if kind != "" then OfKind(visible, kind) else visible;
    SliceIs(wanted, offset, limit);
    WholeSlice(wanted);
  }

  lemma WholeSlice(events: seq<Event>)
    ensures Slice(events, 0, |events|) == events
  {
  }

  // ---- summaries ----

  datatype Summary = Summary(
    count: nat,
    durationMs: Option<int>,
    kinds: map<string, nat>,
    outcomes: map<string, nat>,
    first: Option<Stamp>,
    last: Option<Stamp>,
    agents: set<string>,
    failed: bool)

  function Bumped(counts: map<string, nat>, key: string): map<string, nat> {
    counts[key := 1 + if key in counts then counts[key] else 0]
  }

  function KindOf(e: Event): string { if e.kind != "" then e.kind else "unknown" }

  function Earlier(a: Option<Stamp>, b: Option<Stamp>): Option<Stamp> {
    if a.None? then b else if b.None? || a.value.text <= b.value.text then a else b
  }

  function Later(a: Option<Stamp>, b: Option<Stamp>): Option<Stamp> {
    if a.None? then b else if b.None? || a.value.text >= b.value.text then a else b
  }

  // int() of the microseconds between two times, in milliseconds, toward zero.
  function Milliseconds(us: int): int { if us >= 0 then us / 1000 else -(-us / 1000) }

  function Duration(first: Option<Stamp>, last: Option<Stamp>): Option<int> {
    if first.None? || last.None? then None
    else
      match (first.value.parsed, last.value.parsed)
      case (Some(Naive(a)), Some(Naive(b))) => Some(Milliseconds(b - a))
      case (Some(Aware(a)), Some(Aware(b))) => Some(Milliseconds(b - a))
      case _ => None
  }

  function Tally(events: seq<Event>): Summary {
    if events == [] then Summary(0, None, map[], map[], None, None, {}, false)
    else
      var e, before := events[|events| - 1], Tally(events[..|events| - 1]);
      Summary(
        before.count + 1,
        None,
        Bumped(before.kinds, KindOf(e)),
        if e.outcome != "" then Bumped(before.outcomes, e.outcome) else before.outcomes,
        Earlier(before.first, e.timestamp),
        Later(before.last, e.timestamp),
        before.agents + if e.agent != "" then {e.agent} else {},
        before.failed || e.outcome == "failure")
  }

  function SummaryOf(events: seq<Event>): Summary {
    Tally(events).(durationMs := Duration(Tally(events).first, Tally(events).last))
  }

  method Summarize(events: seq<Event>) returns (summary: Summary)
    ensures summary == SummaryOf(events)
  {
    var kinds: map<string, nat>, outcomes: map<string, nat> := map[], map[];
    var agents: set<string> := {};
    var first, last: Option<Stamp> := None, None;
    for i := 0 to |events|
      invariant ("failure" in outcomes) == Tally(events[..i]).failed
      invariant Summary(i, None, kinds, outcomes, first, last, agents, "failure" in outcomes) == Tally(events[..i])
    {
      var e := events[i];
      assert events[..i + 1][..i] == events[..i];
      kinds := Bumped(kinds, KindOf(e));
      if e.outcome != "" {
        outcomes := Bumped(outcomes, e.outcome);
      }
      if e.agent != "" {
        agents := agents + {e.agent};
      }
      first := Earlier(first, e.timestamp);
      last := Later(last, e.timestamp);
    }
    assert events[..|events|] == events;
    return Summary(|events|, Duration(first, last), kinds, outcomes, first, last, agents, "failure" in outcomes);
  }

  method GetSessionSummary(s: Store, session: string, rd: Reader) returns (summary: Summary)
    ensures summary == SummaryOf(SessionEvents(s, session, rd))
  {
    var hydrated := GetEventBatch(s, IndexOf(s, session), rd);
    summary := Summarize(OfSession(hydrated, session));
  }

  function CountKind(events: seq<Event>, kind: string): nat {
    if events == [] then 0
    else CountKind(events[..|events| - 1], kind) + if KindOf(events[|events| - 1]) == kind then 1 else 0
  }

  function CountOutcome(events: seq<Event>, outcome: string): nat {
    if events == [] then 0
    else CountOutcome(events[..|events| - 1], outcome) + if events[|events| - 1].outcome == outcome then 1 else 0
  }

  // Every figure of a summary, said of the events themselves.
  lemma {:induction false} SummaryCounts(events: seq<Event>, key: string)
    ensures var sum := SummaryOf(events);
            && sum.count == |events|
            && CountKind(events, key) == (if key in sum.kinds then sum.kinds[key] else 0)
            && (key != "" ==> CountOutcome(events, key) == (if key in sum.outcomes then sum.outcomes[key] else 0))
  {
    if events != [] {
      SummaryCounts(events[..|events| - 1], key);
    }
  }

  lemma {:induction false} SummaryNames(events: seq<Event>, agent: string)
    ensures var sum := SummaryOf(events);
            && (agent in sum.agents <==> agent != "" && exists i :: 0 <= i < |events| && events[i].agent == agent)
            && (sum.failed <==> exists i :: 0 <= i < |events| && events[i].outcome == "failure")
  {
    if events != [] {
      var n := |events| - 1;
      SummaryNames(events[..n], agent);
      assert forall i :: 0 <= i < n ==> events[..n][i] == events[i];
    }
  }

  lemma {:induction false} SummaryBounds(events: seq<Event>)
    ensures var sum := SummaryOf(events);
            && (sum.first.None? <==> forall i :: 0 <= i < |events| ==> events[i].timestamp.None?)
            && (sum.first.None? <==> sum.last.None?)
            && (forall i :: 0 <= i < |events| && events[i].timestamp.Some? ==>
              sum.first.Some? && sum.first.value.text <= events[i].timestamp.value.text <= sum.last.value.text)
            && (sum.first.Some? ==> exists i :: 0 <= i < |events| && events[i].timestamp == sum.first)
            && (sum.last.Some? ==> exists i :: 0 <= i < |events| && events[i].timestamp == sum.last)
  {
    if events != [] {
      var n := |events| - 1;
      SummaryBounds(events[..n]);
      assert forall i :: 0 <= i < n ==> events[..n][i] == events[i];
    }
  }

  // ---- the context at an event ----

  datatype ContextReply =
    | NotFound
    | NotIndexed
    | Exact(context: string, at: Option<Stamp>)
    | Nearest(context: string, nearest: Id, steps: nat, at: Option<Stamp>)
    | NoSnapshot

  // An empty snapshot counts as none.
  function Snapshot(s: Store, e: Event): string {
    if e.contextRef != "" && e.contextRef in s.ctx then s.ctx[e.contextRef] else ""
  }

  // The nearest snapshot before the first n ids' end, counting visible events.
  function WalkBack(s: Store, ids: seq<Id>, steps: nat, at: Option<Stamp>, rd: Reader): ContextReply {
    if ids == [] then NoSnapshot
    else
      var n := |ids| - 1;
      var e := EventOf(s, ids[n], rd);
      if e.None? then WalkBack(s, ids[..n], steps, at, rd)
      else if Snapshot(s, e.value) != "" then Nearest(Snapshot(s, e.value), e.value.id, steps + 1, at)
      else WalkBack(s, ids[..n], steps + 1, at, rd)
  }

  function FirstIndex(ids: seq<Id>, id: Id): (i: nat)
    ensures i <= |ids| && (i < |ids| ==> ids[i] == id) && forall k :: 0 <= k < i ==> ids[k] != id
  {
    if ids == [] || ids[0] == id then 0 else 1 + FirstIndex(ids[1..], id)
  }

  function ContextAt(s: Store, session: string, id: Id, rd: Reader): ContextReply {
    var e := EventOf(s, id, rd);
    if e.None? then NotFound
    else if Snapshot(s, e.value) != "" then Exact(Snapshot(s, e.value), e.value.timestamp)
    else
      var ids := IndexOf(s, session);
      var target := FirstIndex(ids, id);
      if target == |ids| then NotIndexed else WalkBack(s, ids[..target], 0, e.value.timestamp, rd)
  }

  method GetContextAt(s: Store, session: string, id: Id, rd: Reader) returns (reply: ContextReply)
    ensures reply == ContextAt(s, session, id, rd)
  {
    var e := GetEvent(s, id, rd);
    if e.None? { return NotFound; }
    if Snapshot(s, e.value) != "" { return Exact(Snapshot(s, e.value), e.value.timestamp); }
    var ids := IndexOf(s, session);
    var target := FirstIndex(ids, id);
    if target == |ids| { return NotIndexed; }
    var i: nat, steps: nat := target, 0;
    while i > 0
      invariant i <= target
      invariant WalkBack(s, ids[..i], steps, e.value.timestamp, rd)
             == WalkBack(s, ids[..target], 0, e.value.timestamp, rd)
    {
      i := i - 1;
      assert ids[..i + 1][..i] == ids[..i];
      var prev := GetEvent(s, ids[i], rd);
      if prev.Some? {
        steps := steps + 1;
        if Snapshot(s, prev.value) != "" {
          return Nearest(Snapshot(s, prev.value), prev.value.id, steps, e.value.timestamp);
        }
      }
    }
    return NoSnapshot;
  }

  // How many of these events the caller can see.
  function VisibleCount(s: Store, ids: seq<Id>, rd: Reader): nat {
    if ids == [] then 0
    else VisibleCount(s, ids[..|ids| - 1], rd) + if EventOf(s, ids[|ids| - 1], rd).Some? then 1 else 0
  }

  predicate HasSnapshot(s: Store, id: Id, rd: Reader) {
    EventOf(s, id, rd).Some? && Snapshot(s, EventOf(s, id, rd).value) != ""
  }

  // Entry i is the last that is visible and has a snapshot.
  predicate LastSnapshot(s: Store, ids: seq<Id>, i: nat, rd: Reader) {
    i < |ids| && HasSnapshot(s, ids[i], rd) && forall k | i < k < |ids| :: !HasSnapshot(s, ids[k], rd)
  }

  // The walk stops at the last event before the target that the caller can see
  // and that has a snapshot, and counts the visible events from there on.
  lemma {:induction false} WalkFindsTheNearest(s: Store, ids: seq<Id>, steps: nat, at: Option<Stamp>, rd: Reader)
    returns (i: nat)
    ensures var reply := WalkBack(s, ids, steps, at, rd);
            if i < |ids| then
              && LastSnapshot(s, ids, i, rd)
              && var e := EventOf(s, ids[i], rd).value;
                 && reply.Nearest? && reply.context == Snapshot(s, e) && reply.nearest == e.id && reply.at == at
                 && reply.steps + VisibleCount(s, ids[..i], rd) == steps + VisibleCount(s, ids, rd)
            else
              reply == NoSnapshot && forall k :: 0 <= k < |ids| ==> !HasSnapshot(s, ids[k], rd)
  {
    hide EventOf, Snapshot;
    i := 0;
    if ids != [] {
      var n := |ids| - 1;
      if HasSnapshot(s, ids[n], rd) {
        i := n;
      } else {
        var further := if EventOf(s, ids[n], rd).Some? then steps + 1 else steps;
        i := WalkFindsTheNearest(s, ids[..n], further, at, rd);
        if i < n {
          assert ids[..n][..i] == ids[..i];
        } else {
          i := |ids|;
        }
      }
    }
    assert ids[..|ids|] == ids;
  }

  // ---- nothing invisible is ever returned ----

  lemma {:induction false} BatchIsVisible(s: Store, ids: seq<Id>, rd: Reader)
    ensures forall e :: e in Batch(s, ids, rd) ==> Sees(rd, e) && e.id in ids
    ensures forall id :: id in ids && IfSeen(rd, Indexed(s, id)).Some? ==> Indexed(s, id).value in Batch(s, ids, rd)
  {
    hide Sees, Indexed;
    if ids != [] {
      var n := |ids| - 1;
      BatchIsVisible(s, ids[..n], rd);
      IndexedHasId(s, ids[n]);
      assert ids == ids[..n] + [ids[n]];
    }
  }

  lemma IndexedHasId(s: Store, id: Id)
    ensures Indexed(s, id).Some? ==> Indexed(s, id).value.id == id
  {
  }

  lemma {:induction false} FilteredAre(events: seq<Event>, session: string, kind: string)
    ensures forall e :: e in OfSession(events, session) <==> e in events && e.session == session
    ensures forall e :: e in OfKind(events, kind) <==> e in events && e.kind == kind
  {
    if events != [] {
      FilteredAre(events[1..], session, kind);
    }
  }

  // A page holds only events of the session asked for, of the kind asked for,
  // that the caller may see.
  lemma TimelineIsVisible(s: Store, session: string, kind: string, offset: nat, limit: nat, rd: Reader, e: Event)
    requires e in Timeline(s, session, kind, offset, limit, rd).events
    ensures Sees(rd, e) && e.session == session && (kind != "" ==> e.kind == kind)
  {
    hide Sees, Batch, OfSession, OfKind;
    var visible := SessionEvents(s, session, rd);
    BatchIsVisible(s, IndexOf(s, session), rd);
    FilteredAre(Batch(s, IndexOf(s, session), rd), session, kind);
    FilteredAre(visible, session, kind);
  }

  // And the full page holds every event of the session's index that the index of
  // ids leads to, that is of the session and kind, and that the caller may see.
  lemma TimelineIsComplete(s: Store, session: string, kind: string, limit: nat, rd: Reader, id: Id)
    requires id in IndexOf(s, session) && IfSeen(rd, Indexed(s, id)).Some?
    requires Indexed(s, id).value.session == session && (kind != "" ==> Indexed(s, id).value.kind == kind)
    requires limit >= Timeline(s, session, kind, 0, 0, rd).total
    ensures Indexed(s, id).value in Timeline(s, session, kind, 0, limit, rd).events
    ensures !Timeline(s, session, kind, 0, limit, rd).hasMore
  {
    hide Sees, Batch, OfSession, OfKind, Indexed;
    var visible := SessionEvents(s, session, rd);
    BatchIsVisible(s, IndexOf(s, session), rd);
    FilteredAre(Batch(s, IndexOf(s, session), rd), session, kind);
    FilteredAre(visible, session, kind);
    var wanted := if kind != "" then OfKind(visible, kind) else visible;
    assert Slice(wanted, 0, limit) == wanted;
  }
}
