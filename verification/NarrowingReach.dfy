/** How far a narrowing walk reaches: its seeds, its levels, its count of visits,
    and which suspects make the list. */
module NarrowingReach {
  import opened Wrappers
  import opened Residency
  import opened ReplayReader
  import opened ReplayReads
  import opened Narrowing

  // ---- the seeds ----

  function FirstOf(events: seq<Event>, n: nat): seq<Event> {
    if |events| <= n then events else events[..n]
  }

  // The visible events of a session, in index order.
  function SeenOf(s: Store, session: string, rd: Reader): seq<Event> {
    Wanted(s, IndexOf(s, session), session, "", rd)
  }

  // The temporal neighbours of a failure with a readable time are those of the
  // session's first 20 visible events, other than it, that are stamped from five
  // seconds before it up to it; in their order.
  predicate Near(failure: Event, f: Formats, e: Event) {
    && failure.timestamp.Some? && failure.timestamp.value.parsed.Some? && e.timestamp.Some? && e.id != failure.id
    && var at := failure.timestamp.value.parsed.value;
       var start := if at.Naive? then Naive(at.t - 5_000_000) else Aware(at.t - 5_000_000);
       f.iso(start) <= e.timestamp.value.text <= f.iso(at)
  }

  function NearOnes(events: seq<Event>, failure: Event, f: Formats): seq<Event> {
    if events == [] then []
    else
      var n := |events| - 1;
      NearOnes(events[..n], failure, f) + if Near(failure, f, events[n]) then [events[n]] else []
  }

  lemma NeighboursAre(s: Store, session: string, failure: Event, f: Formats, rd: Reader)
    ensures Neighbours(s, session, failure, f, rd) == NearOnes(FirstOf(SeenOf(s, session, rd), 20), failure, f)
  {
    hide Wanted, Timeline, Near;
    TimelineIs(s, session, "", 0, 20, rd);
    var first := FirstOf(SeenOf(s, session, rd), 20);
    assert Timeline(s, session, "", 0, 20, rd).events == first;
    WindowIs(first, failure, f);
  }

  lemma WindowIs(events: seq<Event>, failure: Event, f: Formats)
    ensures NearOnes(events, failure, f) ==
      if failure.timestamp.None? || failure.timestamp.value.parsed.None? then []
      else
        var at := failure.timestamp.value.parsed.value;
        Within(events, f.iso(Moved(at, -WINDOW_US)), f.iso(at), failure.id)
  {
    if failure.timestamp.None? || failure.timestamp.value.parsed.None? {
      NoneNear(events, failure, f);
    } else {
      WithinNear(events, failure, f);
    }
  }

  lemma {:induction false} NoneNear(events: seq<Event>, failure: Event, f: Formats)
    requires failure.timestamp.None? || failure.timestamp.value.parsed.None?
    ensures NearOnes(events, failure, f) == []
  {
    if events != [] {
      NoneNear(events[..|events| - 1], failure, f);
    }
  }

  lemma {:induction false} WithinNear(events: seq<Event>, failure: Event, f: Formats)
    requires failure.timestamp.Some? && failure.timestamp.value.parsed.Some?
    ensures var at := failure.timestamp.value.parsed.value;
            NearOnes(events, failure, f) == Within(events, f.iso(Moved(at, -WINDOW_US)), f.iso(at), failure.id)
  {
    if events != [] {
      var n, at := |events| - 1, failure.timestamp.value.parsed.value;
      WithinNear(events[..n], failure, f);
      WithinSnoc(events[..n], events[n], f.iso(Moved(at, -WINDOW_US)), f.iso(at), failure.id);
      assert events == events[..n] + [events[n]];
    }
  }

  lemma {:induction false} WithinSnoc(events: seq<Event>, e: Event, from: int, to: int, id: Id)
    ensures Within(events + [e], from, to, id)
         == Within(events, from, to, id)
            + if e.timestamp.Some? && from <= e.timestamp.value.text <= to && e.id != id then [e] else []
  {
    if events != [] {
      WithinSnoc(events[1..], e, from, to, id);
      assert (events + [e])[1..] == events[1..] + [e];
    }
  }

  // A walk starts, one hop away, at what the failure links to, at 0.8 of each
  // link's confidence, or of 0.5 without one, and then at its neighbours, at 0.24.
  lemma {:induction false} LinkSeedsAre(links: seq<Link>, i: nat)
    ensures |LinkSeeds(links)| == |links|
    ensures i < |links| ==>
      LinkSeeds(links)[i] == Probe(links[i].target, LinkWeight(links[i]) * 0.8, 1)
  {
    if links != [] {
      LinkSeedsAre(links[..|links| - 1], i);
    }
  }

  function LinkWeight(link: Link): real {
    match link.confidence
    case Some(c) => c
    case None => 0.5
  }

  lemma {:induction false} NeighbourSeedsAre(a: seq<Event>, e: Event, b: seq<Event>, id: Id)
    ensures NeighbourSeeds(a + [e] + b, id)
         == NeighbourSeeds(a, id) + (if e.id != "" && e.id != id then [Probe(e.id, 0.24, 1)] else [])
            + NeighbourSeeds(b, id)
  {
    if b == [] {
      assert a + [e] + b == a + [e] && (a + [e])[..|a|] == a;
    } else {
      var n := |b| - 1;
      NeighbourSeedsAre(a, e, b[..n], id);
      assert (a + [e] + b)[..|a| + 1 + n] == a + [e] + b[..n] && (a + [e] + b)[|a| + 1 + n] == b[n];
    }
  }

  lemma {:induction false} NeighbourIsSeed(neighbours: seq<Event>, e: Event, id: Id)
    requires e in neighbours && e.id != "" && e.id != id
    ensures Probe(e.id, 0.24, 1) in NeighbourSeeds(neighbours, id)
  {
    var n := |neighbours| - 1;
    if e == neighbours[n] {
      assert NEIGHBOUR_CONFIDENCE * HOP_DECAY == 0.24;
    } else {
      NeighbourIsSeed(neighbours[..n], e, id);
    }
  }

  lemma {:induction false} SeedsAreOne(links: seq<Link>, neighbours: seq<Event>, id: Id)
    ensures forall q :: q in LinkSeeds(links) + NeighbourSeeds(neighbours, id) ==> q.depth == 1
  {
    if links != [] {
      SeedsAreOne(links[..|links| - 1], neighbours, id);
    } else if neighbours != [] {
      SeedsAreOne(links, neighbours[..|neighbours| - 1], id);
    }
  }

  // ---- level by level ----

  // The queue is in order of depth, and spans two levels at most.
  predicate Leveled(queue: seq<Probe>) {
    forall i, j :: 0 <= i < j < |queue| ==> queue[i].depth <= queue[j].depth <= queue[i].depth + 1
  }

  predicate Behind(found: seq<Suspect>, queue: seq<Probe>) {
    forall i, j :: 0 <= i < |found| && 0 <= j < |queue| ==> found[i].depth <= queue[j].depth
  }

  predicate InLevels(found: seq<Suspect>) {
    forall i, j :: 0 <= i < j < |found| ==> found[i].depth <= found[j].depth
  }

  // Reported, and no deeper than this.
  ghost predicate ReportedBy(found: seq<Suspect>, id: Id, depth: int) {
    exists i :: 0 <= i < |found| && found[i].event.id == id && found[i].depth <= depth
  }

  // What x links to, worth following, is reported one level below x at the latest,
  // or waits there.
  ghost predicate Nearly(
    s: Store, rd: Reader, x: Suspect, maxDepth: int, found: seq<Suspect>, visited: set<Id>, queue: seq<Probe>)
  {
    x.depth < maxDepth ==>
      forall i | 0 <= i < |x.event.links| && Decay(x.score, x.event.links[i]) > NEGLIGIBLE
                 && EventOf(s, x.event.links[i].target, rd).Some? ::
        || ReportedBy(found, x.event.links[i].target, x.depth + 1)
        || (x.event.links[i].target !in visited && Queued(queue, x.event.links[i].target, x.depth + 1))
  }

  ghost predicate AllNearly(
    s: Store, rd: Reader, some: seq<Suspect>, maxDepth: int, found: seq<Suspect>, visited: set<Id>, queue: seq<Probe>)
  {
    forall x :: x in some ==> Nearly(s, rd, x, maxDepth, found, visited, queue)
  }

  ghost predicate Levels(
    s: Store, rd: Reader, maxDepth: int, queue: seq<Probe>, visited: set<Id>, found: seq<Suspect>)
  {
    && Leveled(queue) && Behind(found, queue) && InLevels(found)
    && VisitedIsFound(s, rd, visited, found) && OncePerEvent(found)
    && AllNearly(s, rd, found, maxDepth, found, visited, queue)
  }

  lemma ReportedGrows(found: seq<Suspect>, more: seq<Suspect>, id: Id, depth: int)
    requires ReportedBy(found, id, depth)
    ensures ReportedBy(found + more, id, depth)
  {
    var i :| 0 <= i < |found| && found[i].event.id == id && found[i].depth <= depth;
    assert (found + more)[i] == found[i];
  }

  lemma SkipKeepsNearly(
    s: Store, rd: Reader, x: Suspect, maxDepth: int, found: seq<Suspect>, visited: set<Id>,
    probe: Probe, rest: seq<Probe>)
    requires Nearly(s, rd, x, maxDepth, found, visited, [probe] + rest)
    requires probe.id in visited || probe.depth > maxDepth
    ensures Nearly(s, rd, x, maxDepth, found, visited, rest)
  {
    hide EventOf, Decay, ReportedBy;
    var queue := [probe] + rest;
    forall i | x.depth < maxDepth && 0 <= i < |x.event.links| && x.event.links[i].target !in visited
               && Queued(queue, x.event.links[i].target, x.depth + 1)
      ensures Queued(rest, x.event.links[i].target, x.depth + 1)
    {
      var k :| 0 <= k < |queue| && queue[k].id == x.event.links[i].target && queue[k].depth == x.depth + 1;
      assert k > 0 && rest[k - 1] == queue[k];
    }
  }

  // Visiting the head leaves every other suspect's links reported or waiting.
  lemma VisitKeepsNearly(
    s: Store, rd: Reader, x: Suspect, maxDepth: int, found: seq<Suspect>, more: seq<Suspect>, visited: set<Id>,
    probe: Probe, rest: seq<Probe>, children: seq<Probe>)
    requires Nearly(s, rd, x, maxDepth, found, visited, [probe] + rest) && Leveled([probe] + rest)
    requires EventOf(s, probe.id, rd).Some? ==> ReportedBy(found + more, probe.id, probe.depth)
    ensures Nearly(s, rd, x, maxDepth, found + more, visited + {probe.id}, rest + children)
  {
    hide EventOf, Decay;
    var queue := [probe] + rest;
    forall i | x.depth < maxDepth && 0 <= i < |x.event.links| && Decay(x.score, x.event.links[i]) > NEGLIGIBLE
               && EventOf(s, x.event.links[i].target, rd).Some?
      ensures || ReportedBy(found + more, x.event.links[i].target, x.depth + 1)
              || (x.event.links[i].target !in visited + {probe.id}
                  && Queued(rest + children, x.event.links[i].target, x.depth + 1))
    {
      var target := x.event.links[i].target;
      if ReportedBy(found, target, x.depth + 1) {
        ReportedGrows(found, more, target, x.depth + 1);
      } else {
        var k :| 0 <= k < |queue| && queue[k].id == target && queue[k].depth == x.depth + 1;
        if target == probe.id {
          assert k > 0 ==> queue[0].depth <= queue[k].depth;
        } else {
          assert k > 0 && (rest + children)[k - 1] == queue[k];
        }
      }
    }
  }

  // And the event visited has its own worthwhile links waiting, or reported before.
  lemma NewIsNearly(
    s: Store, rd: Reader, maxDepth: int, found: seq<Suspect>, visited: set<Id>, probe: Probe, e: Event,
    rest: seq<Probe>)
    requires VisitedIsFound(s, rd, visited, found) && Behind(found, [probe] + rest)
    requires EventOf(s, probe.id, rd) == Some(e) && e.id == probe.id
    ensures var x := Suspect(e, probe.score, probe.depth);
            Nearly(s, rd, x, maxDepth, found + [x], visited + {probe.id},
                   rest + Children(e.links, probe.score, probe.depth))
  {
    hide EventOf, Decay;
    var x, children := Suspect(e, probe.score, probe.depth), Children(e.links, probe.score, probe.depth);
    forall i | x.depth < maxDepth && 0 <= i < |e.links| && Decay(x.score, e.links[i]) > NEGLIGIBLE
               && EventOf(s, e.links[i].target, rd).Some?
      ensures || ReportedBy(found + [x], e.links[i].target, x.depth + 1)
              || (e.links[i].target !in visited + {probe.id}
                  && Queued(rest + children, e.links[i].target, x.depth + 1))
    {
      var target := e.links[i].target;
      if target == probe.id {
        assert (found + [x])[|found|] == x;
      } else if target in visited {
        VisitedReported(s, rd, found, visited, probe, rest, target);
        ReportedGrows(found, [x], target, x.depth + 1);
      } else {
        ChildrenAreQueued(e.links, x.score, x.depth, i);
        var k :| 0 <= k < |children| && children[k].id == target && children[k].depth == x.depth + 1;
        assert (rest + children)[|rest| + k] == children[k];
      }
    }
  }

  lemma VisitedReported(
    s: Store, rd: Reader, found: seq<Suspect>, visited: set<Id>, probe: Probe, rest: seq<Probe>, id: Id)
    requires VisitedIsFound(s, rd, visited, found) && Behind(found, [probe] + rest)
    requires id in visited && EventOf(s, id, rd).Some?
    ensures ReportedBy(found, id, probe.depth) && ReportedBy(found, id, probe.depth + 1)
  {
    hide EventOf;
    assert Reports(found, id);
    var i :| 0 <= i < |found| && found[i].event.id == id;
    assert ([probe] + rest)[0] == probe;
  }

  lemma {:induction false} ChildrenAreBelow(links: seq<Link>, score: real, depth: int)
    ensures forall q :: q in Children(links, score, depth) ==> q.depth == depth + 1
  {
    if links != [] {
      ChildrenAreBelow(links[..|links| - 1], score, depth);
    }
  }

  lemma VisitKeepsLevels(probe: Probe, rest: seq<Probe>, children: seq<Probe>, found: seq<Suspect>, e: Event)
    requires Leveled([probe] + rest) && Behind(found, [probe] + rest) && InLevels(found)
    requires forall q :: q in children ==> q.depth == probe.depth + 1
    ensures Leveled(rest + children) && Behind(found, rest + children)
    ensures var more := found + [Suspect(e, probe.score, probe.depth)];
            Behind(more, rest + children) && InLevels(more)
  {
    var queue, longer := [probe] + rest, rest + children;
    assert queue[0] == probe;
    forall j | 0 <= j < |longer| ensures probe.depth <= longer[j].depth <= probe.depth + 1 {
      if j < |rest| {
        assert longer[j] == queue[j + 1];
      } else {
        assert longer[j] in children;
      }
    }
    forall i, j | 0 <= i < j < |longer| ensures longer[i].depth <= longer[j].depth {
      if j < |rest| {
        assert longer[i] == queue[i + 1] && longer[j] == queue[j + 1];
      } else {
        assert longer[j] in children;
      }
    }
  }

  lemma TailKeepsLevels(probe: Probe, rest: seq<Probe>, found: seq<Suspect>)
    requires Leveled([probe] + rest) && Behind(found, [probe] + rest)
    ensures Leveled(rest) && Behind(found, rest)
  {
    var queue := [probe] + rest;
    forall j | 0 <= j < |rest| ensures rest[j] == queue[j + 1] {}
  }

  // One turn.
  lemma SkipKeepsAll(s: Store, rd: Reader, maxDepth: int, probe: Probe, rest: seq<Probe>, visited: set<Id>,
                     found: seq<Suspect>)
    requires Levels(s, rd, maxDepth, [probe] + rest, visited, found)
    requires probe.id in visited || probe.depth > maxDepth
    ensures Levels(s, rd, maxDepth, rest, visited, found)
  {
    hide EventOf, Leveled, Behind, InLevels, VisitedIsFound, OncePerEvent, Nearly;
    TailKeepsLevels(probe, rest, found);
    forall x | x in found ensures Nearly(s, rd, x, maxDepth, found, visited, rest) {
      SkipKeepsNearly(s, rd, x, maxDepth, found, visited, probe, rest);
    }
  }

  lemma MissKeepsAll(s: Store, rd: Reader, maxDepth: int, probe: Probe, rest: seq<Probe>, visited: set<Id>,
                     found: seq<Suspect>)
    requires Levels(s, rd, maxDepth, [probe] + rest, visited, found)
    requires probe.id !in visited && EventOf(s, probe.id, rd).None?
    ensures Levels(s, rd, maxDepth, rest, visited + {probe.id}, found)
  {
    hide EventOf, Leveled, Behind, InLevels, VisitedIsFound, OncePerEvent, Nearly;
    TailKeepsLevels(probe, rest, found);
    VisitKeepsFound(s, rd, probe, visited, found);
    assert found + [] == found && rest + [] == rest;
    forall x | x in found ensures Nearly(s, rd, x, maxDepth, found, visited + {probe.id}, rest) {
      VisitKeepsNearly(s, rd, x, maxDepth, found, [], visited, probe, rest, []);
    }
  }

  lemma HitKeepsAll(s: Store, rd: Reader, maxDepth: int, probe: Probe, rest: seq<Probe>, visited: set<Id>,
                    found: seq<Suspect>, e: Event)
    requires Levels(s, rd, maxDepth, [probe] + rest, visited, found)
    requires probe.id !in visited && EventOf(s, probe.id, rd) == Some(e)
    ensures Levels(s, rd, maxDepth, rest + Children(e.links, probe.score, probe.depth), visited + {probe.id},
                   found + [Suspect(e, probe.score, probe.depth)])
  {
    hide EventOf, Leveled, Behind, InLevels, VisitedIsFound, OncePerEvent, Nearly, Children;
    EventHasId(s, probe.id, rd);
    var x, children := Suspect(e, probe.score, probe.depth), Children(e.links, probe.score, probe.depth);
    ChildrenAreBelow(e.links, probe.score, probe.depth);
    VisitKeepsLevels(probe, rest, children, found, e);
    VisitKeepsFound(s, rd, probe, visited, found);
    NewIsNearly(s, rd, maxDepth, found, visited, probe, e, rest);
    assert (found + [x])[|found|] == x;
    forall y | y in found ensures Nearly(s, rd, y, maxDepth, found + [x], visited + {probe.id}, rest + children) {
      VisitKeepsNearly(s, rd, y, maxDepth, found, [x], visited, probe, rest, children);
    }
  }

  // A walk from an ordered queue reports in order of depth; all that was queued
  // within the limit no deeper than it was queued; and what its suspects link to
  // no more than one level below them.
  lemma {:induction false} BfsLevels(
    s: Store, rd: Reader, maxDepth: int, queue: seq<Probe>, visited: set<Id>, sofar: Walk)
    requires Levels(s, rd, maxDepth, queue, visited, sofar.suspects)
    ensures var found := Bfs(s, rd, maxDepth, queue, visited, sofar).suspects;
            && InLevels(found) && AllNearly(s, rd, found, maxDepth, found, {}, [])
            && forall q :: q in queue && q.depth <= maxDepth && EventOf(s, q.id, rd).Some? ==>
                 ReportedBy(found, q.id, q.depth)
    decreases |Ids(s.stream) - visited|, |queue|
  {
    hide EventOf, Children, Levels, InLevels, AllNearly, ReportedBy;
    if queue == [] {
      DoneIsNearly(s, rd, maxDepth, visited, sofar.suspects);
    } else {
      var probe, rest := queue[0], queue[1..];
      var found := Bfs(s, rd, maxDepth, queue, visited, sofar).suspects;
      assert queue == [probe] + rest;
      if probe.id in visited || probe.depth > maxDepth {
        SkipKeepsAll(s, rd, maxDepth, probe, rest, visited, sofar.suspects);
        BfsLevels(s, rd, maxDepth, rest, visited, sofar);
        BfsKeeps(s, rd, maxDepth, rest, visited, sofar);
        if probe.id in visited && EventOf(s, probe.id, rd).Some? {
          HeadReported(s, rd, maxDepth, probe, rest, visited, sofar.suspects, found);
        }
      } else {
        VisitShrinks(s, rd, probe.id, visited);
        var e := EventOf(s, probe.id, rd);
        if e.None? {
          MissKeepsAll(s, rd, maxDepth, probe, rest, visited, sofar.suspects);
          BfsLevels(s, rd, maxDepth, rest, visited + {probe.id}, sofar.(walked := sofar.walked + 1));
        } else {
          EventHasId(s, probe.id, rd);
          var more := sofar.suspects + [Suspect(e.value, probe.score, probe.depth)];
          var longer := rest + Children(e.value.links, probe.score, probe.depth);
          HitKeepsAll(s, rd, maxDepth, probe, rest, visited, sofar.suspects, e.value);
          BfsLevels(s, rd, maxDepth, longer, visited + {probe.id}, Walk(more, sofar.walked + 1));
          BfsKeeps(s, rd, maxDepth, longer, visited + {probe.id}, Walk(more, sofar.walked + 1));
          NewIsReported(more, found, |sofar.suspects|);
          assert forall q :: q in rest ==> q in longer;
        }
      }
    }
  }

  lemma DoneIsNearly(s: Store, rd: Reader, maxDepth: int, visited: set<Id>, found: seq<Suspect>)
    requires Levels(s, rd, maxDepth, [], visited, found)
    ensures InLevels(found) && AllNearly(s, rd, found, maxDepth, found, {}, [])
  {
    hide EventOf, ReportedBy, Decay;
    forall x | x in found ensures Nearly(s, rd, x, maxDepth, found, {}, []) {
      assert Nearly(s, rd, x, maxDepth, found, visited, []);
    }
  }

  lemma HeadReported(s: Store, rd: Reader, maxDepth: int, probe: Probe, rest: seq<Probe>, visited: set<Id>,
                     found: seq<Suspect>, all: seq<Suspect>)
    requires Levels(s, rd, maxDepth, [probe] + rest, visited, found) && found <= all
    requires probe.id in visited && EventOf(s, probe.id, rd).Some?
    ensures ReportedBy(all, probe.id, probe.depth)
  {
    hide EventOf, AllNearly;
    VisitedReported(s, rd, found, visited, probe, rest, probe.id);
    ReportedGrows(found, all[|found|..], probe.id, probe.depth);
    assert found + all[|found|..] == all;
  }

  lemma NewIsReported(more: seq<Suspect>, all: seq<Suspect>, i: nat)
    requires more <= all && i < |more|
    ensures ReportedBy(all, more[i].event.id, more[i].depth)
  {
    assert all[i] == more[i];
  }

  // ---- the walk of a narrowing ----

  // Worth following: at a score above 0.01.
  predicate Follows(x: Suspect, link: Link) { OneHopOn(x.score, LinkWeight(link)) > 0.01 }

  function OneHopOn(score: real, weight: real): real { score * weight * 0.8 }

  // Every readable event behind a link worth following from a suspect above the
  // limit is reported, one level below it at the latest.
  ghost predicate AllFollowed(s: Store, rd: Reader, maxDepth: int, found: seq<Suspect>) {
    forall x, i | x in found && x.depth < maxDepth && 0 <= i < |x.event.links|
                  && Follows(x, x.event.links[i]) && EventOf(s, x.event.links[i].target, rd).Some? ::
      ReportedBy(found, x.event.links[i].target, x.depth + 1)
  }

  // Every readable event that the failure links to, or that is its neighbour, is
  // found at depth 1; every readable one behind a link worth following from a
  // suspect above the limit, one level below it at the latest; in order of depth.
  lemma WalkReaches(s: Store, session: string, failure: Event, id: Id, maxDepth: int, f: Formats, rd: Reader)
    ensures var found := WalkFrom(s, session, failure, id, maxDepth, f, rd).suspects;
            && InLevels(found)
            && (maxDepth >= 1 ==>
              && (forall i | 0 <= i < |failure.links| && EventOf(s, failure.links[i].target, rd).Some? ::
                ReportedBy(found, failure.links[i].target, 1))
              && (forall e | e in NearOnes(FirstOf(SeenOf(s, session, rd), 20), failure, f)
                             && e.id != "" && e.id != id && EventOf(s, e.id, rd).Some? ::
                ReportedBy(found, e.id, 1)))
            && AllFollowed(s, rd, maxDepth, found)
  {
    hide EventOf, NearOnes, SeenOf, Bfs, Levels, InLevels, ReportedBy, AllNearly, Neighbours;
    var neighbours := Neighbours(s, session, failure, f, rd);
    var queue := Seeds(s, session, failure, id, f, rd);
    NeighboursAre(s, session, failure, f, rd);
    SeedsStart(s, rd, maxDepth, failure.links, neighbours, id);
    BfsLevels(s, rd, maxDepth, queue, {}, Walk([], 0));
    var found := Bfs(s, rd, maxDepth, queue, {}, Walk([], 0)).suspects;
    if maxDepth >= 1 {
      forall i | 0 <= i < |failure.links| && EventOf(s, failure.links[i].target, rd).Some?
        ensures ReportedBy(found, failure.links[i].target, 1)
      {
        LinkSeedsAre(failure.links, i);
        assert queue[i] == LinkSeeds(failure.links)[i] && queue[i] in queue;
      }
      forall e | e in neighbours && e.id != "" && e.id != id && EventOf(s, e.id, rd).Some?
        ensures ReportedBy(found, e.id, 1)
      {
        NeighbourIsSeed(neighbours, e, id);
        assert Probe(e.id, 0.24, 1) in queue;
      }
    }
    FollowedAreReported(s, rd, maxDepth, found);
  }

  lemma SeedsStart(s: Store, rd: Reader, maxDepth: int, links: seq<Link>, neighbours: seq<Event>, id: Id)
    ensures Levels(s, rd, maxDepth, LinkSeeds(links) + NeighbourSeeds(neighbours, id), {}, [])
  {
    hide EventOf, LinkSeeds, NeighbourSeeds, VisitedIsFound, Leveled;
    SeedsAreOne(links, neighbours, id);
    OneLevel(LinkSeeds(links) + NeighbourSeeds(neighbours, id));
    NothingFound(s, rd);
  }

  lemma OneLevel(queue: seq<Probe>)
    requires forall q :: q in queue ==> q.depth == 1
    ensures Leveled(queue)
  {
    assert forall i :: 0 <= i < |queue| ==> queue[i] in queue;
  }

  lemma NothingFound(s: Store, rd: Reader)
    ensures VisitedIsFound(s, rd, {}, [])
  {
    hide EventOf;
  }

  lemma FollowedAreReported(s: Store, rd: Reader, maxDepth: int, found: seq<Suspect>)
    requires AllNearly(s, rd, found, maxDepth, found, {}, [])
    ensures AllFollowed(s, rd, maxDepth, found)
  {
    hide EventOf, ReportedBy, Follows, Decay;
    forall x, i | x in found && x.depth < maxDepth && 0 <= i < |x.event.links|
                  && Follows(x, x.event.links[i]) && EventOf(s, x.event.links[i].target, rd).Some?
      ensures ReportedBy(found, x.event.links[i].target, x.depth + 1)
    {
      assert Nearly(s, rd, x, maxDepth, found, {}, []);
      FollowsIs(x, x.event.links[i]);
    }
  }

  lemma FollowsIs(x: Suspect, link: Link)
    ensures Follows(x, link) <==> Decay(x.score, link) > NEGLIGIBLE
  {
    DecayIsHop(x.score, Confidence(link), link);
  }

  lemma DecayIsHop(score: real, weight: real, link: Link)
    requires weight == Confidence(link)
    ensures Decay(score, link) == OneHopOn(score, weight)
  {
    assert Decay(score, link) == score * weight * HOP_DECAY;
  }

  // ---- the count of visits ----

  // A walk has reason to visit: a seed within the limit, or a link worth following
  // from a suspect above it.
  ghost predicate Reached(maxDepth: int, seeds: seq<Probe>, found: seq<Suspect>, id: Id) {
    || (exists i :: 0 <= i < |seeds| && seeds[i].id == id && seeds[i].depth <= maxDepth)
    || (exists x :: x in found && Reaches(maxDepth, x, id))
  }

  ghost predicate Reaches(maxDepth: int, x: Suspect, id: Id) {
    x.depth < maxDepth && exists i :: 0 <= i < |x.event.links| && x.event.links[i].target == id
                                      && Decay(x.score, x.event.links[i]) > NEGLIGIBLE
  }

  ghost predicate Waits(maxDepth: int, queue: seq<Probe>, id: Id) {
    exists i :: 0 <= i < |queue| && queue[i].id == id && queue[i].depth <= maxDepth
  }

  // So far, exactly what there was reason to visit is visited or waits.
  ghost predicate OnCourse(
    maxDepth: int, seeds: seq<Probe>, queue: seq<Probe>, visited: set<Id>, found: seq<Suspect>)
  {
    forall id :: Reached(maxDepth, seeds, found, id) <==> id in visited || Waits(maxDepth, queue, id)
  }

  lemma WaitsSplits(maxDepth: int, a: seq<Probe>, b: seq<Probe>, id: Id)
    ensures Waits(maxDepth, a + b, id) <==> Waits(maxDepth, a, id) || Waits(maxDepth, b, id)
  {
    var all := a + b;
    if Waits(maxDepth, a, id) {
      var i :| 0 <= i < |a| && a[i].id == id && a[i].depth <= maxDepth;
      assert all[i] == a[i];
    }
    if Waits(maxDepth, b, id) {
      var i :| 0 <= i < |b| && b[i].id == id && b[i].depth <= maxDepth;
      assert all[|a| + i] == b[i];
    }
  }

  lemma WaitsOne(maxDepth: int, probe: Probe, id: Id)
    ensures Waits(maxDepth, [probe], id) <==> probe.id == id && probe.depth <= maxDepth
  {
    assert [probe][0] == probe;
  }

  lemma ChildrenWait(maxDepth: int, e: Event, score: real, depth: int, id: Id)
    ensures Waits(maxDepth, Children(e.links, score, depth), id)
            <==> Reaches(maxDepth, Suspect(e, score, depth), id)
  {
    hide Decay;
    ChildrenAre(maxDepth, e.links, score, depth, id);
  }

  lemma {:induction false} ChildrenAre(maxDepth: int, links: seq<Link>, score: real, depth: int, id: Id)
    ensures Waits(maxDepth, Children(links, score, depth), id) <==>
      depth < maxDepth && exists i :: 0 <= i < |links| && links[i].target == id && Decay(score, links[i]) > NEGLIGIBLE
  {
    hide Decay;
    if links != [] {
      var n := |links| - 1;
      var last := if Decay(score, links[n]) > NEGLIGIBLE
                  then [Probe(links[n].target, Decay(score, links[n]), depth + 1)] else [];
      ChildrenAre(maxDepth, links[..n], score, depth, id);
      WaitsSplits(maxDepth, Children(links[..n], score, depth), last, id);
      if last != [] {
        WaitsOne(maxDepth, last[0], id);
      }
      assert forall i :: 0 <= i < n ==> links[..n][i] == links[i];
    }
  }

  lemma ReachedGrows(maxDepth: int, seeds: seq<Probe>, found: seq<Suspect>, x: Suspect, id: Id)
    ensures Reached(maxDepth, seeds, found + [x], id)
            <==> Reached(maxDepth, seeds, found, id) || Reaches(maxDepth, x, id)
  {
    hide Reaches;
    assert forall y :: y in found + [x] <==> y in found || y == x;
  }

  // One turn: the head is visited, was visited before, or lies too deep.
  lemma TurnStaysOnCourse(
    maxDepth: int, seeds: seq<Probe>, probe: Probe, rest: seq<Probe>, visited: set<Id>, found: seq<Suspect>)
    requires OnCourse(maxDepth, seeds, [probe] + rest, visited, found)
    ensures probe.id in visited || probe.depth > maxDepth ==> OnCourse(maxDepth, seeds, rest, visited, found)
    ensures probe.depth <= maxDepth ==> OnCourse(maxDepth, seeds, rest, visited + {probe.id}, found)
  {
    hide Reached, Waits;
    forall id ensures Waits(maxDepth, [probe] + rest, id) <==>
                        Waits(maxDepth, rest, id) || (probe.id == id && probe.depth <= maxDepth)
    {
      WaitsSplits(maxDepth, [probe], rest, id);
      WaitsOne(maxDepth, probe, id);
    }
  }

  lemma HitStaysOnCourse(
    maxDepth: int, seeds: seq<Probe>, rest: seq<Probe>, visited: set<Id>, found: seq<Suspect>, x: Suspect)
    requires OnCourse(maxDepth, seeds, rest, visited, found)
    ensures OnCourse(maxDepth, seeds, rest + Children(x.event.links, x.score, x.depth), visited, found + [x])
  {
    hide Reached, Waits, Reaches;
    var children := Children(x.event.links, x.score, x.depth);
    forall id ensures Reached(maxDepth, seeds, found + [x], id)
                      <==> id in visited || Waits(maxDepth, rest + children, id)
    {
      ReachedGrows(maxDepth, seeds, found, x, id);
      WaitsSplits(maxDepth, rest, children, id);
      ChildrenWait(maxDepth, x.event, x.score, x.depth, id);
    }
  }

  // The walk visits exactly what there is reason to visit, readable or not, each
  // once, and counts the visits.
  lemma {:induction false} BfsVisits(
    s: Store, rd: Reader, maxDepth: int, seeds: seq<Probe>, queue: seq<Probe>, visited: set<Id>, sofar: Walk)
    returns (all: set<Id>)
    requires OnCourse(maxDepth, seeds, queue, visited, sofar.suspects) && sofar.walked == |visited|
    ensures var walk := Bfs(s, rd, maxDepth, queue, visited, sofar);
            walk.walked == |all| && forall id :: id in all <==> Reached(maxDepth, seeds, walk.suspects, id)
    decreases |Ids(s.stream) - visited|, |queue|
  {
    hide EventOf, Children, OnCourse, Reached;
    if queue == [] {
      all := visited;
      NothingWaits(maxDepth, seeds, visited, sofar.suspects);
    } else {
      var probe, rest := queue[0], queue[1..];
      assert queue == [probe] + rest;
      TurnStaysOnCourse(maxDepth, seeds, probe, rest, visited, sofar.suspects);
      if probe.id in visited || probe.depth > maxDepth {
        all := BfsVisits(s, rd, maxDepth, seeds, rest, visited, sofar);
      } else {
        VisitShrinks(s, rd, probe.id, visited);
        var e := EventOf(s, probe.id, rd);
        var now := visited + {probe.id};
        if e.None? {
          all := BfsVisits(s, rd, maxDepth, seeds, rest, now, sofar.(walked := sofar.walked + 1));
        } else {
          var x := Suspect(e.value, probe.score, probe.depth);
          HitStaysOnCourse(maxDepth, seeds, rest, now, sofar.suspects, x);
          all := BfsVisits(s, rd, maxDepth, seeds, rest + Children(e.value.links, probe.score, probe.depth), now,
                           Walk(sofar.suspects + [x], sofar.walked + 1));
        }
      }
    }
  }

  lemma NothingWaits(maxDepth: int, seeds: seq<Probe>, visited: set<Id>, found: seq<Suspect>)
    requires OnCourse(maxDepth, seeds, [], visited, found)
    ensures forall id :: id in visited <==> Reached(maxDepth, seeds, found, id)
  {
    hide Reached;
  }

  // What the failure links to, its neighbours, and what is behind a link worth
  // following from a suspect above the limit.
  ghost predicate WorthVisit(
    s: Store, session: string, failure: Event, id: Id, maxDepth: int, f: Formats, rd: Reader, found: seq<Suspect>,
    visit: Id)
  {
    || (maxDepth >= 1
        && (|| IsTarget(failure.links, visit)
            || IsNeighbour(NearOnes(FirstOf(SeenOf(s, session, rd), 20), failure, f), id, visit)))
    || exists x :: x in found && LeadsOn(maxDepth, x, visit)
  }

  ghost predicate IsTarget(links: seq<Link>, visit: Id) {
    exists i :: 0 <= i < |links| && links[i].target == visit
  }

  ghost predicate IsNeighbour(neighbours: seq<Event>, failure: Id, visit: Id) {
    visit != "" && visit != failure && exists i :: 0 <= i < |neighbours| && neighbours[i].id == visit
  }

  ghost predicate LeadsOn(maxDepth: int, x: Suspect, visit: Id) {
    x.depth < maxDepth
    && exists i :: 0 <= i < |x.event.links| && x.event.links[i].target == visit && Follows(x, x.event.links[i])
  }

  // Exactly these are visited, each once, readable or not, and that is the count.
  lemma WalkCounts(s: Store, session: string, failure: Event, id: Id, maxDepth: int, f: Formats, rd: Reader)
    returns (all: set<Id>)
    ensures var walk := WalkFrom(s, session, failure, id, maxDepth, f, rd);
            && walk.walked == |all|
            && forall i :: i in all <==> WorthVisit(s, session, failure, id, maxDepth, f, rd, walk.suspects, i)
  {
    hide Bfs, LinkSeeds, NeighbourSeeds, Neighbours, NearOnes, SeenOf;
    var seeds := Seeds(s, session, failure, id, f, rd);
    var neighbours := Neighbours(s, session, failure, f, rd);
    NeighboursAre(s, session, failure, f, rd);
    all := BfsVisits(s, rd, maxDepth, seeds, seeds, {}, Walk([], 0));
    var found := Bfs(s, rd, maxDepth, seeds, {}, Walk([], 0)).suspects;
    hide Reached, WorthVisit;
    forall i ensures Reached(maxDepth, seeds, found, i)
                     <==> WorthVisit(s, session, failure, id, maxDepth, f, rd, found, i)
    {
      ReachedIs(s, session, failure, id, maxDepth, f, rd, found, i);
    }
  }

  lemma ReachedIs(
    s: Store, session: string, failure: Event, id: Id, maxDepth: int, f: Formats, rd: Reader, found: seq<Suspect>,
    visit: Id)
    ensures Reached(maxDepth, Seeds(s, session, failure, id, f, rd), found, visit)
            <==> WorthVisit(s, session, failure, id, maxDepth, f, rd, found, visit)
  {
    hide LinkSeeds, NeighbourSeeds, Neighbours, NearOnes, SeenOf, Reaches, LeadsOn, IsTarget, IsNeighbour;
    var neighbours := Neighbours(s, session, failure, f, rd);
    NeighboursAre(s, session, failure, f, rd);
    WaitsSplits(maxDepth, LinkSeeds(failure.links), NeighbourSeeds(neighbours, id), visit);
    LinkSeedsWait(maxDepth, failure.links, visit);
    NeighbourSeedsWait(maxDepth, neighbours, id, visit);
    forall x ensures Reaches(maxDepth, x, visit) <==> LeadsOn(maxDepth, x, visit) {
      ReachesIs(maxDepth, x, visit);
    }
  }

  lemma ReachesIs(maxDepth: int, x: Suspect, visit: Id)
    ensures Reaches(maxDepth, x, visit) <==> LeadsOn(maxDepth, x, visit)
  {
    hide Decay, Follows;
    forall i | 0 <= i < |x.event.links|
      ensures Follows(x, x.event.links[i]) <==> Decay(x.score, x.event.links[i]) > NEGLIGIBLE
    {
      FollowsIs(x, x.event.links[i]);
    }
  }

  lemma {:induction false} LinkSeedsWait(maxDepth: int, links: seq<Link>, visit: Id)
    ensures Waits(maxDepth, LinkSeeds(links), visit) <==> maxDepth >= 1 && IsTarget(links, visit)
  {
    if links != [] {
      var n := |links| - 1;
      LinkSeedsWait(maxDepth, links[..n], visit);
      var last := LinkSeeds(links)[|LinkSeeds(links[..n])|];
      WaitsSplits(maxDepth, LinkSeeds(links[..n]), [last], visit);
      WaitsOne(maxDepth, last, visit);
      assert forall i :: 0 <= i < n ==> links[..n][i] == links[i];
    }
  }

  lemma {:induction false} NeighbourSeedsWait(maxDepth: int, neighbours: seq<Event>, failure: Id, visit: Id)
    ensures Waits(maxDepth, NeighbourSeeds(neighbours, failure), visit)
            <==> maxDepth >= 1 && IsNeighbour(neighbours, failure, visit)
  {
    hide Waits;
    if neighbours == [] {
      assert NeighbourSeeds(neighbours, failure) == [];
      NobodyWaits(maxDepth, visit);
    } else {
      var n := |neighbours| - 1;
      NeighbourSeedsWait(maxDepth, neighbours[..n], failure, visit);
      var last := Probe(neighbours[n].id, NEIGHBOUR_CONFIDENCE * HOP_DECAY, 1);
      WaitsSplits(maxDepth, NeighbourSeeds(neighbours[..n], failure), [last], visit);
      WaitsOne(maxDepth, last, visit);
      assert NeighbourSeeds(neighbours[..n], failure) + [] == NeighbourSeeds(neighbours[..n], failure);
      assert forall i :: 0 <= i < n ==> neighbours[..n][i] == neighbours[i];
    }
  }

  lemma NobodyWaits(maxDepth: int, visit: Id)
    ensures !Waits(maxDepth, [], visit)
  {
  }

  // ---- the list ----

  // Which of two suspects of a walk is listed first: the one shown the higher score,
  // or, where that is equal, the one found first.
  predicate Before(suspects: seq<Suspect>, a: nat, b: nat, round: real -> real) {
    && a < |suspects| && b < |suspects| && a != b
    && round(suspects[a].score) >= round(suspects[b].score)
    && (round(suspects[a].score) == round(suspects[b].score) ==> a < b)
  }

  // Places of the walk, each at most once, in the order of the list.
  ghost predicate Ranks(suspects: seq<Suspect>, at: seq<nat>, round: real -> real) {
    forall i, j :: 0 <= i < j < |at| ==> Before(suspects, at[i], at[j], round)
  }

  // The list has these places of the walk.
  ghost predicate Lists(suspects: seq<Suspect>, ranked: seq<Suspect>, at: seq<nat>, n: nat) {
    && |at| == |ranked|
    && forall i :: 0 <= i < |at| ==> at[i] < n <= |suspects| && ranked[i] == suspects[at[i]]
  }

  ghost predicate IsRanking(suspects: seq<Suspect>, ranked: seq<Suspect>, at: seq<nat>, round: real -> real) {
    |ranked| == |suspects| && Lists(suspects, ranked, at, |suspects|) && Ranks(suspects, at, round)
  }

  lemma {:induction false} RankedIs(suspects: seq<Suspect>, n: nat, round: real -> real) returns (at: seq<nat>)
    requires n <= |suspects|
    ensures |at| == n && Lists(suspects, Ranked(suspects[..n], round), at, n) && Ranks(suspects, at, round)
  {
    at := [];
    if n > 0 {
      hide Lists, Ranks, Inserted;
      var before := RankedIs(suspects, n - 1, round);
      assert suspects[..n][..n - 1] == suspects[..n - 1];
      at := InsertedIs(suspects, Ranked(suspects[..n - 1], round), before, n - 1, round);
    } else {
      assert Lists(suspects, [], at, n);
    }
  }

  lemma {:induction false} InsertedIs(
    suspects: seq<Suspect>, ranked: seq<Suspect>, places: seq<nat>, n: nat, round: real -> real)
    returns (at: seq<nat>)
    requires n < |suspects| && Lists(suspects, ranked, places, n) && Ranks(suspects, places, round)
    ensures |at| == |places| + 1 && Lists(suspects, Inserted(ranked, suspects[n], round), at, n + 1)
    ensures Ranks(suspects, at, round) && forall i :: 0 <= i < |at| ==> at[i] == n || at[i] in places
    decreases |ranked|
  {
    hide Before;
    var x := suspects[n];
    if ranked == [] || round(ranked[|ranked| - 1].score) >= round(x.score) {
      at := places + [n];
      LastFits(suspects, places, n, round);
    } else {
      var last := |ranked| - 1;
      var front := InsertedIs(suspects, ranked[..last], places[..last], n, round);
      at := front + [places[last]];
      Outscores(suspects, n, places[last], round);
      RanksSnoc(suspects, front, places[last], places, n, round);
      ListsSnoc(suspects, Inserted(ranked[..last], x, round), front, ranked[last], places[last], n);
      assert at[|front|] == places[last] && places[last] in places;
    }
  }

  lemma RanksSnoc(suspects: seq<Suspect>, front: seq<nat>, b: nat, places: seq<nat>, n: nat, round: real -> real)
    requires Ranks(suspects, front, round) && Ranks(suspects, places, round)
    requires places != [] && places[|places| - 1] == b && Before(suspects, n, b, round)
    requires forall i :: 0 <= i < |front| ==> front[i] == n || front[i] in places[..|places| - 1]
    ensures Ranks(suspects, front + [b], round)
  {
    hide Before;
    forall i | 0 <= i < |front| ensures Before(suspects, front[i], b, round) {
      if front[i] != n {
        var k :| 0 <= k < |places| - 1 && places[k] == front[i];
        assert Before(suspects, places[k], places[|places| - 1], round);
      }
    }
  }

  lemma ListsSnoc(suspects: seq<Suspect>, ranked: seq<Suspect>, at: seq<nat>, x: Suspect, b: nat, n: nat)
    requires Lists(suspects, ranked, at, n + 1) && b < n < |suspects| && suspects[b] == x
    ensures Lists(suspects, ranked + [x], at + [b], n + 1)
  {
  }

  lemma Outscores(suspects: seq<Suspect>, a: nat, b: nat, round: real -> real)
    requires a < |suspects| && b < |suspects| && round(suspects[a].score) > round(suspects[b].score)
    ensures Before(suspects, a, b, round)
  {
  }

  lemma LastFits(suspects: seq<Suspect>, places: seq<nat>, n: nat, round: real -> real)
    requires n < |suspects| && Ranks(suspects, places, round)
    requires forall i :: 0 <= i < |places| ==> places[i] < n
    requires places != [] ==> round(suspects[places[|places| - 1]].score) >= round(suspects[n].score)
    ensures Ranks(suspects, places + [n], round)
  {
    forall i | 0 <= i < |places| ensures Before(suspects, places[i], n, round) {
      assert i < |places| - 1 ==> Before(suspects, places[i], places[|places| - 1], round);
    }
    hide Before;
  }

  // A reply lists the best of the walk, as many as were asked for or all there are.
  lemma ReplyIs(s: Store, session: string, id: Id, maxDepth: int, maxResults: nat, f: Formats, rd: Reader)
    returns (ranked: seq<Suspect>, at: seq<nat>)
    ensures var failure, reply := EventOf(s, id, rd), NarrowOf(s, session, id, maxDepth, maxResults, f, rd);
            if failure.None? then reply == Narrowed([], 0, false, false)
            else
              var walk := WalkFrom(s, session, failure.value, id, maxDepth, f, rd);
              && IsRanking(walk.suspects, ranked, at, f.round)
              && reply.suspects == (if |ranked| <= maxResults then ranked else ranked[..maxResults])
              && reply.walked == walk.walked && reply.found
              && (reply.linked <==> exists e :: e in FirstOf(SeenOf(s, session, rd), 500) && e.links != [])
  {
    hide EventOf, WalkFrom, Ranked, SeenOf, IsRanking, Lists, Ranks;
    ranked, at := [], [];
    if EventOf(s, id, rd).Some? {
      var walk := WalkFrom(s, session, EventOf(s, id, rd).value, id, maxDepth, f, rd);
      ranked := Ranked(walk.suspects, f.round);
      at := RankedIs(walk.suspects, |walk.suspects|, f.round);
      assert walk.suspects[..|walk.suspects|] == walk.suspects && ranked[..|ranked|] == ranked;
      WholeRanking(walk.suspects, ranked, at, f.round);
      LinkedIs(s, session, rd);
    }
  }

  lemma WholeRanking(suspects: seq<Suspect>, ranked: seq<Suspect>, at: seq<nat>, round: real -> real)
    requires |at| == |suspects| && Lists(suspects, ranked, at, |suspects|) && Ranks(suspects, at, round)
    ensures IsRanking(suspects, ranked, at, round)
  {
  }

  lemma LinkedIs(s: Store, session: string, rd: Reader)
    ensures AnyLinks(s, session, rd) <==> exists e :: e in FirstOf(SeenOf(s, session, rd), 500) && e.links != []
  {
    hide Wanted, Timeline;
    TimelineIs(s, session, "", 0, 500, rd);
    var events := Timeline(s, session, "", 0, 500, rd).events;
    assert events == FirstOf(SeenOf(s, session, rd), 500);
    if e :| e in events && e.links != [] {
      var i :| 0 <= i < |events| && events[i] == e;
      assert events[i].links != [];
    }
  }
}
