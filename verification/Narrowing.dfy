/** replay/narrowing.py: the walk back from a failure through trace links. */
module Narrowing {
  import opened Wrappers
  import opened Principal
  import opened Residency
  import opened ReplayReader

  const HOP_DECAY := 0.8
  const NEIGHBOUR_CONFIDENCE := 0.3
  const DEFAULT_CONFIDENCE := 0.5
  const NEGLIGIBLE := 0.01
  const WINDOW_US := 5_000_000
  const NEIGHBOUR_LIMIT := 20
  const CENSUS_LIMIT := 500

  // A queued visit, and a reported event; the score a caller is shown is rounded.
  datatype Probe = Probe(id: Id, score: real, depth: int)
  datatype Suspect = Suspect(event: Event, score: real, depth: int)

  datatype Narrowed = Narrowed(suspects: seq<Suspect>, walked: nat, found: bool, linked: bool)

  // isoformat() as a place in string order, and round(_, 4).
  datatype Formats = Formats(iso: Clock -> int, round: real -> real)

  function Confidence(link: Link): real {
    if link.confidence.Some? then link.confidence.value else DEFAULT_CONFIDENCE
  }

  // ---- where the walk starts and goes on ----

  function Moved(at: Clock, us: int): Clock {
    match at
    case Naive(t) => Naive(t + us)
    case Aware(t) => Aware(t + us)
  }

  function Within(events: seq<Event>, from: int, to: int, id: Id): seq<Event> {
    if events == [] then []
    else
      var e := events[0];
      (if e.timestamp.Some? && from <= e.timestamp.value.text <= to && e.id != id then [e] else [])
      + Within(events[1..], from, to, id)
  }

  // Events of the session's first page in the five seconds up to the failure; an
  // unreadable time has no neighbours.
  function Neighbours(s: Store, session: string, failure: Event, f: Formats, rd: Reader): seq<Event> {
    if failure.timestamp.None? || failure.timestamp.value.parsed.None? then []
    else
      var at := failure.timestamp.value.parsed.value;
      var page := Timeline(s, session, "", 0, NEIGHBOUR_LIMIT, rd);
      Within(page.events, f.iso(Moved(at, -WINDOW_US)), f.iso(at), failure.id)
  }

  function LinkSeeds(links: seq<Link>): seq<Probe> {
    if links == [] then []
    else
      var n := |links| - 1;
      LinkSeeds(links[..n]) + [Probe(links[n].target, Confidence(links[n]) * HOP_DECAY, 1)]
  }

  function NeighbourSeeds(neighbours: seq<Event>, failure: Id): seq<Probe> {
    if neighbours == [] then []
    else
      var n := |neighbours| - 1;
      NeighbourSeeds(neighbours[..n], failure)
      + if neighbours[n].id != "" && neighbours[n].id != failure
        then [Probe(neighbours[n].id, NEIGHBOUR_CONFIDENCE * HOP_DECAY, 1)] else []
  }

  function Decay(score: real, link: Link): real {
    score * Confidence(link) * HOP_DECAY
  }

  function Children(links: seq<Link>, score: real, depth: int): seq<Probe> {
    if links == [] then []
    else
      var n := |links| - 1;
      var child := Decay(score, links[n]);
      Children(links[..n], score, depth) + if child > NEGLIGIBLE then [Probe(links[n].target, child, depth + 1)] else []
  }

  function Ids(stream: seq<Entry>): set<Id> {
    set i | 0 <= i < |stream| :: stream[i].event.id
  }

  lemma {:induction false} EntryHasId(stream: seq<Entry>, at: nat)
    ensures EntryAt(stream, at).Some? ==> EntryAt(stream, at).value.id in Ids(stream)
  {
    if stream != [] {
      assert stream[0].event.id in Ids(stream);
      EntryHasId(stream[1..], at);
      forall id | id in Ids(stream[1..]) ensures id in Ids(stream) {
        var i :| 0 <= i < |stream[1..]| && stream[1..][i].event.id == id;
        assert stream[i + 1].event.id == id;
      }
    }
  }

  lemma {:induction false} RecentHasId(stream: seq<Entry>, id: Id, n: nat)
    ensures FindRecent(stream, id, n).Some? ==> FindRecent(stream, id, n).value.id == id && id in Ids(stream)
  {
    if stream != [] && n > 0 {
      var last := |stream| - 1;
      assert stream[last].event.id in Ids(stream);
      RecentHasId(stream[..last], id, n - 1);
      forall x | x in Ids(stream[..last]) ensures x in Ids(stream) {
        var i :| 0 <= i < last && stream[..last][i].event.id == x;
        assert stream[i].event.id == x;
      }
    }
  }

  // A read that answers answers with the event asked for, from the stream.
  lemma EventHasId(s: Store, id: Id, rd: Reader)
    ensures EventOf(s, id, rd).Some? ==> EventOf(s, id, rd).value.id == id && id in Ids(s.stream)
  {
    RecentHasId(s.stream, id, RECENT);
    if id in s.eid {
      EntryHasId(s.stream, s.eid[id]);
    }
  }

  datatype Walk = Walk(suspects: seq<Suspect>, walked: nat)

  // Each turn visits an event not visited before, or shortens the queue.
  function Bfs(s: Store, rd: Reader, maxDepth: int, queue: seq<Probe>, visited: set<Id>, sofar: Walk): Walk
    decreases |Ids(s.stream) - visited|, |queue|
  {
    if queue == [] then sofar
    else
      var probe := queue[0];
      if probe.id in visited || probe.depth > maxDepth then Bfs(s, rd, maxDepth, queue[1..], visited, sofar)
      else
        var e := EventOf(s, probe.id, rd);
        VisitShrinks(s, rd, probe.id, visited);
        if e.None? then
          Bfs(s, rd, maxDepth, queue[1..], visited + {probe.id}, sofar.(walked := sofar.walked + 1))
        else
          Bfs(s, rd, maxDepth, queue[1..] + Children(e.value.links, probe.score, probe.depth), visited + {probe.id},
              Walk(sofar.suspects + [Suspect(e.value, probe.score, probe.depth)], sofar.walked + 1))
  }

  lemma VisitShrinks(s: Store, rd: Reader, id: Id, visited: set<Id>)
    requires id !in visited
    ensures |Ids(s.stream) - (visited + {id})| <= |Ids(s.stream) - visited|
    ensures EventOf(s, id, rd).Some? ==> |Ids(s.stream) - (visited + {id})| < |Ids(s.stream) - visited|
  {
    EventHasId(s, id, rd);
    var left := Ids(s.stream) - visited;
    assert Ids(s.stream) - (visited + {id}) == left - {id};
  }

  // list.sort(reverse=True): descending by rounded score, ties in walk order.
  function Inserted(ranked: seq<Suspect>, x: Suspect, round: real -> real): seq<Suspect> {
    if ranked == [] then [x]
    else
      var n := |ranked| - 1;
      if round(ranked[n].score) >= round(x.score) then ranked + [x]
      else Inserted(ranked[..n], x, round) + [ranked[n]]
  }

  function Ranked(suspects: seq<Suspect>, round: real -> real): seq<Suspect> {
    if suspects == [] then []
    else Inserted(Ranked(suspects[..|suspects| - 1], round), suspects[|suspects| - 1], round)
  }

  function Seeds(s: Store, session: string, failure: Event, id: Id, f: Formats, rd: Reader): seq<Probe> {
    LinkSeeds(failure.links) + NeighbourSeeds(Neighbours(s, session, failure, f, rd), id)
  }

  function WalkFrom(s: Store, session: string, failure: Event, id: Id, maxDepth: int, f: Formats, rd: Reader): Walk {
    Bfs(s, rd, maxDepth, Seeds(s, session, failure, id, f, rd), {}, Walk([], 0))
  }

  predicate AnyLinks(s: Store, session: string, rd: Reader) {
    var events := Timeline(s, session, "", 0, CENSUS_LIMIT, rd).events;
    exists i | 0 <= i < |events| :: events[i].links != []
  }

  function NarrowOf(s: Store, session: string, id: Id, maxDepth: int, maxResults: nat, f: Formats, rd: Reader)
    : Narrowed
  {
    var failure := EventOf(s, id, rd);
    if failure.None? then Narrowed([], 0, false, false)
    else
      var walk := WalkFrom(s, session, failure.value, id, maxDepth, f, rd);
      var ranked := Ranked(walk.suspects, f.round);
      var top := if maxResults < |ranked| then maxResults else |ranked|;
      Narrowed(ranked[..top], walk.walked, true, AnyLinks(s, session, rd))
  }

  method Narrow(s: Store, session: string, id: Id, maxDepth: int, maxResults: nat, f: Formats, rd: Reader)
    returns (reply: Narrowed)
    ensures reply == NarrowOf(s, session, id, maxDepth, maxResults, f, rd)
  {
    var failure := GetEvent(s, id, rd);
    if failure.None? { return Narrowed([], 0, false, false); }
    var queue := SeedQueue(failure.value.links, Neighbours(s, session, failure.value, f, rd), id);
    var walk := WalkLinks(s, maxDepth, queue, rd);
    var ranked := Ranked(walk.suspects, f.round);
    var linked := AnyLinks(s, session, rd);
    return Narrowed(ranked[..if maxResults < |ranked| then maxResults else |ranked|], walk.walked, true, linked);
  }

  method SeedQueue(links: seq<Link>, neighbours: seq<Event>, failure: Id) returns (queue: seq<Probe>)
    ensures queue == LinkSeeds(links) + NeighbourSeeds(neighbours, failure)
  {
    queue := [];
    for i := 0 to |links|
      invariant queue == LinkSeeds(links[..i])
    {
      assert links[..i + 1][..i] == links[..i];
      queue := queue + [Probe(links[i].target, Confidence(links[i]) * HOP_DECAY, 1)];
    }
    assert links[..|links|] == links && queue + NeighbourSeeds([], failure) == queue;
    for i := 0 to |neighbours|
      invariant queue == LinkSeeds(links) + NeighbourSeeds(neighbours[..i], failure)
    {
      assert neighbours[..i + 1][..i] == neighbours[..i];
      if neighbours[i].id != "" && neighbours[i].id != failure {
        queue := queue + [Probe(neighbours[i].id, NEIGHBOUR_CONFIDENCE * HOP_DECAY, 1)];
      }
    }
    assert neighbours[..|neighbours|] == neighbours;
  }

  method WalkLinks(s: Store, maxDepth: int, seeds: seq<Probe>, rd: Reader) returns (walk: Walk)
    ensures walk == Bfs(s, rd, maxDepth, seeds, {}, Walk([], 0))
  {
    hide Children, EventOf;
    var queue := seeds;
    var visited: set<Id>, suspects: seq<Suspect>, walked: nat := {}, [], 0;
    while queue != []
      invariant Bfs(s, rd, maxDepth, queue, visited, Walk(suspects, walked))
             == Bfs(s, rd, maxDepth, seeds, {}, Walk([], 0))
      decreases |Ids(s.stream) - visited|, |queue|
    {
      var probe := queue[0];
      queue := queue[1..];
      if probe.id in visited || probe.depth > maxDepth {
        continue;
      }
      VisitShrinks(s, rd, probe.id, visited);
      visited := visited + {probe.id};
      walked := walked + 1;
      var e := GetEvent(s, probe.id, rd);
      if e.None? {
        continue;
      }
      suspects := suspects + [Suspect(e.value, probe.score, probe.depth)];
      var children := ChildProbes(e.value.links, probe.score, probe.depth);
      queue := queue + children;
    }
    return Walk(suspects, walked);
  }

  method ChildProbes(links: seq<Link>, score: real, depth: int) returns (children: seq<Probe>)
    ensures children == Children(links, score, depth)
  {
    children := [];
    for i := 0 to |links|
      invariant children == Children(links[..i], score, depth)
    {
      assert links[..i + 1][..i] == links[..i];
      var child := Decay(score, links[i]);
      if child > NEGLIGIBLE {
        children := children + [Probe(links[i].target, child, depth + 1)];
      }
    }
    assert links[..|links|] == links;
  }

  // ---- the way to a suspect ----

  datatype Hop = Hop(id: Id, confidence: real)

  ghost predicate LinksTo(links: seq<Link>, hop: Hop) {
    exists i :: 0 <= i < |links| && links[i].target == hop.id && Confidence(links[i]) == hop.confidence
  }

  // The first hop follows a link of the failure or goes to one of its temporal
  // neighbours; every further hop follows a link of the event before it.
  ghost predicate IsTrail(s: Store, rd: Reader, failure: Event, neighbours: seq<Event>, path: seq<Hop>)
    decreases |path|
  {
    path != [] &&
    var n := |path| - 1;
    if n == 0 then
      || LinksTo(failure.links, path[0])
      || (path[0].confidence == NEIGHBOUR_CONFIDENCE
          && exists i :: 0 <= i < |neighbours| && neighbours[i].id == path[0].id)
    else
      && IsTrail(s, rd, failure, neighbours, path[..n])
      && var e := EventOf(s, path[n - 1].id, rd);
         e.Some? && LinksTo(e.value.links, path[n])
  }

  // The product of the confidences along the path, each hop decayed.
  function Decayed(path: seq<Hop>): real {
    if path == [] then 1.0
    else Decayed(path[..|path| - 1]) * path[|path| - 1].confidence * HOP_DECAY
  }

  ghost predicate Leads(s: Store, rd: Reader, failure: Event, neighbours: seq<Event>, path: seq<Hop>, probe: Probe) {
    && IsTrail(s, rd, failure, neighbours, path)
    && path[|path| - 1].id == probe.id && Decayed(path) == probe.score && |path| == probe.depth
  }

  ghost predicate Grounded(s: Store, rd: Reader, failure: Event, neighbours: seq<Event>, probe: Probe) {
    && (exists path :: Leads(s, rd, failure, neighbours, path, probe))
    && (probe.depth > 1 ==> probe.score > NEGLIGIBLE)
  }

  ghost predicate SuspectOk(s: Store, rd: Reader, failure: Event, neighbours: seq<Event>, maxDepth: int, x: Suspect) {
    && EventOf(s, x.event.id, rd) == Some(x.event) && x.depth <= maxDepth
    && Grounded(s, rd, failure, neighbours, Probe(x.event.id, x.score, x.depth))
  }

  lemma OneHop(s: Store, rd: Reader, failure: Event, neighbours: seq<Event>, hop: Hop)
    requires IsTrail(s, rd, failure, neighbours, [hop])
    ensures Grounded(s, rd, failure, neighbours, Probe(hop.id, hop.confidence * HOP_DECAY, 1))
  {
    assert [hop][..0] == [];
    assert Decayed([hop]) == hop.confidence * HOP_DECAY;
    assert Leads(s, rd, failure, neighbours, [hop], Probe(hop.id, hop.confidence * HOP_DECAY, 1));
  }

  lemma {:induction false} LinkSeedsGrounded(
    s: Store, rd: Reader, failure: Event, neighbours: seq<Event>, links: seq<Link>)
    requires links <= failure.links
    ensures forall q :: q in LinkSeeds(links) ==> Grounded(s, rd, failure, neighbours, q)
  {
    hide Grounded;
    if links != [] {
      var n := |links| - 1;
      LinkSeedsGrounded(s, rd, failure, neighbours, links[..n]);
      var hop := Hop(links[n].target, Confidence(links[n]));
      assert failure.links[n] == links[n] && LinksTo(failure.links, hop);
      OneHop(s, rd, failure, neighbours, hop);
    }
  }

  lemma {:induction false} NeighbourSeedsGrounded(
    s: Store, rd: Reader, failure: Event, neighbours: seq<Event>, some: seq<Event>, id: Id)
    requires some <= neighbours
    ensures forall q :: q in NeighbourSeeds(some, id) ==> Grounded(s, rd, failure, neighbours, q)
  {
    hide Grounded;
    if some != [] {
      var n := |some| - 1;
      NeighbourSeedsGrounded(s, rd, failure, neighbours, some[..n], id);
      var hop := Hop(some[n].id, NEIGHBOUR_CONFIDENCE);
      assert neighbours[n].id == hop.id;
      OneHop(s, rd, failure, neighbours, hop);
    }
  }

  lemma ChildGrounded(s: Store, rd: Reader, failure: Event, neighbours: seq<Event>, probe: Probe, e: Event, link: Link)
    requires Grounded(s, rd, failure, neighbours, probe) && EventOf(s, probe.id, rd) == Some(e) && link in e.links
    requires Decay(probe.score, link) > NEGLIGIBLE
    ensures var child := Probe(link.target, Decay(probe.score, link), probe.depth + 1);
            Grounded(s, rd, failure, neighbours, child)
  {
    hide EventOf;
    var path :| Leads(s, rd, failure, neighbours, path, probe);
    var hop := Hop(link.target, Confidence(link));
    var longer := path + [hop];
    assert longer[..|longer| - 1] == path;
    assert LinksTo(e.links, hop);
    assert Leads(s, rd, failure, neighbours, longer,
                 Probe(link.target, Decay(probe.score, link), probe.depth + 1));
  }

  lemma {:induction false} ChildrenGrounded(
    s: Store, rd: Reader, failure: Event, neighbours: seq<Event>, probe: Probe, e: Event, links: seq<Link>)
    requires Grounded(s, rd, failure, neighbours, probe) && EventOf(s, probe.id, rd) == Some(e) && links <= e.links
    ensures forall q :: q in Children(links, probe.score, probe.depth) ==> Grounded(s, rd, failure, neighbours, q)
  {
    hide Grounded, EventOf, Decay;
    if links != [] {
      var n := |links| - 1;
      ChildrenGrounded(s, rd, failure, neighbours, probe, e, links[..n]);
      assert links[n] == e.links[n];
      if Decay(probe.score, links[n]) > NEGLIGIBLE {
        ChildGrounded(s, rd, failure, neighbours, probe, e, links[n]);
      }
    }
  }

  ghost predicate AllGrounded(s: Store, rd: Reader, failure: Event, neighbours: seq<Event>, queue: seq<Probe>) {
    forall q :: q in queue ==> Grounded(s, rd, failure, neighbours, q)
  }

  ghost predicate AllOk(
    s: Store, rd: Reader, failure: Event, neighbours: seq<Event>, maxDepth: int, found: seq<Suspect>)
  {
    forall x :: x in found ==> SuspectOk(s, rd, failure, neighbours, maxDepth, x)
  }

  lemma {:induction false} BfsGrounded(
    s: Store, rd: Reader, failure: Event, neighbours: seq<Event>, maxDepth: int,
    queue: seq<Probe>, visited: set<Id>, sofar: Walk)
    requires AllGrounded(s, rd, failure, neighbours, queue)
    requires AllOk(s, rd, failure, neighbours, maxDepth, sofar.suspects)
    ensures AllOk(s, rd, failure, neighbours, maxDepth, Bfs(s, rd, maxDepth, queue, visited, sofar).suspects)
    decreases |Ids(s.stream) - visited|, |queue|
  {
    hide Grounded, EventOf, Children;
    if queue != [] {
      var probe, rest := queue[0], queue[1..];
      if probe.id in visited || probe.depth > maxDepth {
        BfsGrounded(s, rd, failure, neighbours, maxDepth, rest, visited, sofar);
      } else {
        VisitShrinks(s, rd, probe.id, visited);
        var e := EventOf(s, probe.id, rd);
        if e.None? {
          var walk := sofar.(walked := sofar.walked + 1);
          BfsGrounded(s, rd, failure, neighbours, maxDepth, rest, visited + {probe.id}, walk);
        } else {
          EventHasId(s, probe.id, rd);
          ChildrenGrounded(s, rd, failure, neighbours, probe, e.value, e.value.links);
          BfsGrounded(s, rd, failure, neighbours, maxDepth, rest + Children(e.value.links, probe.score, probe.depth),
                      visited + {probe.id},
                      Walk(sofar.suspects + [Suspect(e.value, probe.score, probe.depth)], sofar.walked + 1));
        }
      }
    }
  }

  // ---- no event twice, and none passed over ----

  predicate OncePerEvent(found: seq<Suspect>) {
    forall i, j :: 0 <= i < j < |found| ==> found[i].event.id != found[j].event.id
  }

  ghost predicate Reports(found: seq<Suspect>, id: Id) {
    exists i :: 0 <= i < |found| && found[i].event.id == id
  }

  // What has been visited and can be read has been reported, and nothing else.
  ghost predicate VisitedIsFound(s: Store, rd: Reader, visited: set<Id>, found: seq<Suspect>) {
    forall id :: Reports(found, id) <==> id in visited && EventOf(s, id, rd).Some?
  }

  ghost predicate Queued(queue: seq<Probe>, id: Id, depth: int) {
    exists i :: 0 <= i < |queue| && queue[i].id == id && queue[i].depth == depth
  }

  // Every link of x worth following has been followed or is about to be.
  ghost predicate LinksFollowed(x: Suspect, maxDepth: int, visited: set<Id>, queue: seq<Probe>) {
    x.depth < maxDepth ==>
      forall i :: 0 <= i < |x.event.links| && Decay(x.score, x.event.links[i]) > NEGLIGIBLE ==>
      x.event.links[i].target in visited || Queued(queue, x.event.links[i].target, x.depth + 1)
  }

  ghost predicate Closed(found: seq<Suspect>, maxDepth: int, visited: set<Id>, queue: seq<Probe>) {
    forall x :: x in found ==> LinksFollowed(x, maxDepth, visited, queue)
  }

  lemma ReportsOneMore(found: seq<Suspect>, x: Suspect, id: Id)
    ensures Reports(found + [x], id) <==> Reports(found, id) || x.event.id == id
  {
    var all := found + [x];
    assert all[|found|] == x;
    if Reports(found, id) {
      var i :| 0 <= i < |found| && found[i].event.id == id;
      assert all[i].event.id == id;
    }
  }

  lemma {:induction false} BfsOnce(
    s: Store, rd: Reader, maxDepth: int, queue: seq<Probe>, visited: set<Id>, sofar: Walk)
    requires OncePerEvent(sofar.suspects) && VisitedIsFound(s, rd, visited, sofar.suspects)
    ensures OncePerEvent(Bfs(s, rd, maxDepth, queue, visited, sofar).suspects)
    decreases |Ids(s.stream) - visited|, |queue|
  {
    hide EventOf, Children, Reports, OncePerEvent, VisitedIsFound;
    if queue != [] {
      var probe, rest := queue[0], queue[1..];
      if probe.id in visited || probe.depth > maxDepth {
        BfsOnce(s, rd, maxDepth, rest, visited, sofar);
      } else {
        VisitShrinks(s, rd, probe.id, visited);
        EventHasId(s, probe.id, rd);
        VisitKeepsFound(s, rd, probe, visited, sofar.suspects);
        var e := EventOf(s, probe.id, rd);
        if e.None? {
          BfsOnce(s, rd, maxDepth, rest, visited + {probe.id}, sofar.(walked := sofar.walked + 1));
        } else {
          BfsOnce(s, rd, maxDepth, rest + Children(e.value.links, probe.score, probe.depth), visited + {probe.id},
                  Walk(sofar.suspects + [Suspect(e.value, probe.score, probe.depth)], sofar.walked + 1));
        }
      }
    }
  }

  lemma VisitKeepsFound(s: Store, rd: Reader, probe: Probe, visited: set<Id>, found: seq<Suspect>)
    requires OncePerEvent(found) && VisitedIsFound(s, rd, visited, found) && probe.id !in visited
    ensures var e := EventOf(s, probe.id, rd);
            var more := if e.Some? then found + [Suspect(e.value, probe.score, probe.depth)] else found;
            OncePerEvent(more) && VisitedIsFound(s, rd, visited + {probe.id}, more)
  {
    EventHasId(s, probe.id, rd);
    hide EventOf, Reports;
    var e := EventOf(s, probe.id, rd);
    if e.Some? {
      var x := Suspect(e.value, probe.score, probe.depth);
      forall id ensures Reports(found + [x], id) <==> Reports(found, id) || x.event.id == id {
        ReportsOneMore(found, x, id);
      }
      forall i | 0 <= i < |found| ensures found[i].event.id != probe.id {
        ReportsAt(found, i);
      }
    }
  }

  lemma ReportsAt(found: seq<Suspect>, i: nat)
    requires i < |found|
    ensures Reports(found, found[i].event.id)
  {
  }

  // ---- the reported list ----

  lemma {:induction false} InsertedSame(ranked: seq<Suspect>, x: Suspect, round: real -> real)
    ensures multiset(Inserted(ranked, x, round)) == multiset(ranked) + multiset{x}
  {
    if ranked != [] {
      var n := |ranked| - 1;
      assert ranked == ranked[..n] + [ranked[n]];
      if round(ranked[n].score) < round(x.score) {
        InsertedSame(ranked[..n], x, round);
      }
    }
  }

  lemma {:induction false} RankedSame(suspects: seq<Suspect>, round: real -> real)
    ensures multiset(Ranked(suspects, round)) == multiset(suspects)
  {
    if suspects != [] {
      var n := |suspects| - 1;
      assert suspects == suspects[..n] + [suspects[n]];
      RankedSame(suspects[..n], round);
      InsertedSame(Ranked(suspects[..n], round), suspects[n], round);
    }
  }

  ghost predicate Descending(ranked: seq<Suspect>, round: real -> real) {
    forall i, j :: 0 <= i < j < |ranked| ==> round(ranked[i].score) >= round(ranked[j].score)
  }

  lemma {:induction false} InsertedDescends(ranked: seq<Suspect>, x: Suspect, round: real -> real)
    requires Descending(ranked, round)
    ensures Descending(Inserted(ranked, x, round), round)
    ensures forall y :: y in Inserted(ranked, x, round) ==> y == x || y in ranked
  {
    if ranked != [] {
      var n := |ranked| - 1;
      if round(ranked[n].score) < round(x.score) {
        InsertedDescends(ranked[..n], x, round);
        var front := Inserted(ranked[..n], x, round);
        forall i | 0 <= i < |front| ensures round(front[i].score) >= round(ranked[n].score) {
          assert front[i] in front;
          if front[i] != x {
            assert front[i] in ranked[..n];
          }
        }
      }
    }
  }

  lemma {:induction false} RankedDescends(suspects: seq<Suspect>, round: real -> real)
    ensures Descending(Ranked(suspects, round), round)
  {
    if suspects != [] {
      RankedDescends(suspects[..|suspects| - 1], round);
      InsertedDescends(Ranked(suspects[..|suspects| - 1], round), suspects[|suspects| - 1], round);
    }
  }

  lemma RankedKeeps(suspects: seq<Suspect>, round: real -> real, x: Suspect)
    ensures x in Ranked(suspects, round) <==> x in suspects
  {
    RankedSame(suspects, round);
    assert x in Ranked(suspects, round) <==> x in multiset(Ranked(suspects, round));
    assert x in suspects <==> x in multiset(suspects);
  }

  lemma OnceCounts(found: seq<Suspect>, x: Suspect)
    requires OncePerEvent(found) && x in found
    ensures multiset(found)[x] == 1
  {
    var i :| 0 <= i < |found| && found[i] == x;
    assert found == found[..i] + [x] + found[i + 1..];
    assert x !in found[..i] && x !in found[i + 1..];
  }

  lemma RankedOnce(suspects: seq<Suspect>, round: real -> real)
    requires OncePerEvent(suspects)
    ensures OncePerEvent(Ranked(suspects, round))
  {
    var ranked := Ranked(suspects, round);
    RankedSame(suspects, round);
    forall i, j | 0 <= i < j < |ranked| ensures ranked[i].event.id != ranked[j].event.id {
      RankedKeeps(suspects, round, ranked[i]);
      RankedKeeps(suspects, round, ranked[j]);
      if ranked[i] == ranked[j] {
        OnceCounts(suspects, ranked[i]);
        TwiceCounts(ranked, i, j);
      }
    }
  }

  lemma TwiceCounts(found: seq<Suspect>, i: nat, j: nat)
    requires i < j < |found| && found[i] == found[j]
    ensures multiset(found)[found[i]] >= 2
  {
    assert found == found[..j] + found[j..];
    assert found[..j][i] == found[i] && found[j..][0] == found[i];
  }

  // ---- the main results ----

  // Every suspect reported is an event the caller can read, at the end of a real
  // path of exactly its depth, with the decayed product along it as its score;
  // none is reported twice, and the best come first.
  lemma SuspectsAreGrounded(s: Store, session: string, id: Id, maxDepth: int, maxResults: nat, f: Formats, rd: Reader)
    requires EventOf(s, id, rd).Some?
    ensures var reply := NarrowOf(s, session, id, maxDepth, maxResults, f, rd);
            var failure := EventOf(s, id, rd).value;
            && AllOk(s, rd, failure, Neighbours(s, session, failure, f, rd), maxDepth, reply.suspects)
            && OncePerEvent(reply.suspects) && Descending(reply.suspects, f.round)
            && |reply.suspects| <= maxResults
  {
    hide SuspectOk, Ranked, WalkFrom, EventOf, Neighbours, Timeline, OncePerEvent, Descending;
    var failure := EventOf(s, id, rd).value;
    var walk := WalkFrom(s, session, failure, id, maxDepth, f, rd);
    WalkIsGrounded(s, session, failure, id, maxDepth, f, rd);
    RankedOnce(walk.suspects, f.round);
    RankedDescends(walk.suspects, f.round);
    forall x | x in Ranked(walk.suspects, f.round) ensures x in walk.suspects {
      RankedKeeps(walk.suspects, f.round, x);
    }
    PrefixKeeps(Ranked(walk.suspects, f.round), maxResults, f.round);
  }

  lemma PrefixKeeps(ranked: seq<Suspect>, max: nat, round: real -> real)
    requires OncePerEvent(ranked) && Descending(ranked, round)
    ensures var top := ranked[..if max < |ranked| then max else |ranked|];
            OncePerEvent(top) && Descending(top, round) && forall x :: x in top ==> x in ranked
  {
  }

  lemma WalkIsGrounded(s: Store, session: string, failure: Event, id: Id, maxDepth: int, f: Formats, rd: Reader)
    ensures var walk := WalkFrom(s, session, failure, id, maxDepth, f, rd);
            && AllOk(s, rd, failure, Neighbours(s, session, failure, f, rd), maxDepth, walk.suspects)
            && OncePerEvent(walk.suspects)
  {
    hide SuspectOk, Grounded, EventOf, Neighbours, LinkSeeds, NeighbourSeeds, Bfs;
    var neighbours := Neighbours(s, session, failure, f, rd);
    LinkSeedsGrounded(s, rd, failure, neighbours, failure.links);
    NeighbourSeedsGrounded(s, rd, failure, neighbours, neighbours, id);
    BfsGrounded(s, rd, failure, neighbours, maxDepth, Seeds(s, session, failure, id, f, rd), {}, Walk([], 0));
    BfsOnce(s, rd, maxDepth, Seeds(s, session, failure, id, f, rd), {}, Walk([], 0));
  }

  // ---- nothing readable is passed over ----

  // Wherever x has a link worth following to an event the caller can read, that
  // event is reported too.
  ghost predicate LinksReported(s: Store, rd: Reader, maxDepth: int, x: Suspect, found: seq<Suspect>) {
    x.depth < maxDepth ==>
      forall i :: 0 <= i < |x.event.links| && Decay(x.score, x.event.links[i]) > NEGLIGIBLE ==>
        EventOf(s, x.event.links[i].target, rd).Some? ==> Reports(found, x.event.links[i].target)
  }

  ghost predicate SeedsReported(s: Store, rd: Reader, maxDepth: int, queue: seq<Probe>, found: seq<Suspect>) {
    forall q :: q in queue && q.depth <= maxDepth && EventOf(s, q.id, rd).Some? ==> Reports(found, q.id)
  }

  lemma {:induction false} ChildrenAreQueued(links: seq<Link>, score: real, depth: int, i: nat)
    requires i < |links| && Decay(score, links[i]) > NEGLIGIBLE
    ensures Queued(Children(links, score, depth), links[i].target, depth + 1)
  {
    hide Decay;
    var n := |links| - 1;
    var before, all := Children(links[..n], score, depth), Children(links, score, depth);
    if i < n {
      ChildrenAreQueued(links[..n], score, depth, i);
      var k :| 0 <= k < |before| && before[k].id == links[i].target && before[k].depth == depth + 1;
      assert all[k] == before[k];
    } else {
      assert all[|before|] == Probe(links[n].target, Decay(score, links[n]), depth + 1);
    }
  }

  // One turn keeps every worthwhile link followed or queued.
  lemma TurnKeepsClosed(
    maxDepth: int, probe: Probe, rest: seq<Probe>, added: seq<Probe>,
    visited: set<Id>, seen: set<Id>, found: seq<Suspect>)
    requires Closed(found, maxDepth, visited, [probe] + rest)
    requires visited <= seen && (probe.depth <= maxDepth ==> probe.id in seen)
    ensures Closed(found, maxDepth, seen, rest + added)
  {
    var queue, after := [probe] + rest, rest + added;
    forall x | x in found ensures LinksFollowed(x, maxDepth, seen, after) {
      assert LinksFollowed(x, maxDepth, visited, queue);
      if x.depth < maxDepth {
        forall i | 0 <= i < |x.event.links| && Decay(x.score, x.event.links[i]) > NEGLIGIBLE
          ensures x.event.links[i].target in seen || Queued(after, x.event.links[i].target, x.depth + 1)
        {
          var target := x.event.links[i].target;
          if target !in seen {
            var k :| 0 <= k < |queue| && queue[k].id == target && queue[k].depth == x.depth + 1;
            assert k > 0 && after[k - 1] == queue[k];
          }
        }
      }
    }
  }

  lemma VisitKeepsClosed(
    maxDepth: int, probe: Probe, rest: seq<Probe>, e: Event, visited: set<Id>, found: seq<Suspect>)
    requires Closed(found, maxDepth, visited, [probe] + rest)
    ensures Closed(found + [Suspect(e, probe.score, probe.depth)], maxDepth, visited + {probe.id},
                   rest + Children(e.links, probe.score, probe.depth))
  {
    var x, children := Suspect(e, probe.score, probe.depth), Children(e.links, probe.score, probe.depth);
    TurnKeepsClosed(maxDepth, probe, rest, children, visited, visited + {probe.id}, found);
    assert LinksFollowed(x, maxDepth, visited + {probe.id}, rest + children) by {
      forall i | 0 <= i < |e.links| && Decay(x.score, e.links[i]) > NEGLIGIBLE
        ensures Queued(rest + children, e.links[i].target, x.depth + 1)
      {
        ChildrenAreQueued(e.links, x.score, x.depth, i);
        var k :| 0 <= k < |children| && children[k].id == e.links[i].target && children[k].depth == x.depth + 1;
        assert (rest + children)[|rest| + k] == children[k];
      }
    }
  }

  // Every visited event stays visited, so what is reported stays reported.
  lemma {:induction false} BfsKeeps(
    s: Store, rd: Reader, maxDepth: int, queue: seq<Probe>, visited: set<Id>, sofar: Walk)
    ensures sofar.suspects <= Bfs(s, rd, maxDepth, queue, visited, sofar).suspects
    decreases |Ids(s.stream) - visited|, |queue|
  {
    hide EventOf, Children;
    if queue != [] {
      var probe, rest := queue[0], queue[1..];
      if probe.id in visited || probe.depth > maxDepth {
        BfsKeeps(s, rd, maxDepth, rest, visited, sofar);
      } else {
        VisitShrinks(s, rd, probe.id, visited);
        var e := EventOf(s, probe.id, rd);
        if e.None? {
          BfsKeeps(s, rd, maxDepth, rest, visited + {probe.id}, sofar.(walked := sofar.walked + 1));
        } else {
          BfsKeeps(s, rd, maxDepth, rest + Children(e.value.links, probe.score, probe.depth), visited + {probe.id},
                   Walk(sofar.suspects + [Suspect(e.value, probe.score, probe.depth)], sofar.walked + 1));
        }
      }
    }
  }

  lemma ReportsGrows(found: seq<Suspect>, all: seq<Suspect>, id: Id)
    requires found <= all && Reports(found, id)
    ensures Reports(all, id)
  {
    var i :| 0 <= i < |found| && found[i].event.id == id;
    assert all[i].event.id == id;
  }

  lemma {:induction false} BfsCloses(
    s: Store, rd: Reader, maxDepth: int, queue: seq<Probe>, visited: set<Id>, sofar: Walk)
    requires OncePerEvent(sofar.suspects) && VisitedIsFound(s, rd, visited, sofar.suspects)
    requires Closed(sofar.suspects, maxDepth, visited, queue)
    ensures var found := Bfs(s, rd, maxDepth, queue, visited, sofar).suspects;
            && SeedsReported(s, rd, maxDepth, queue, found)
            && forall x :: x in found ==> LinksReported(s, rd, maxDepth, x, found)
    decreases |Ids(s.stream) - visited|, |queue|
  {
    hide EventOf, Children, Closed, VisitedIsFound, OncePerEvent, Reports, LinksReported;
    if queue == [] {
      ClosedIsReported(s, rd, maxDepth, visited, sofar.suspects);
    } else {
      var probe, rest := queue[0], queue[1..];
      var found := Bfs(s, rd, maxDepth, queue, visited, sofar).suspects;
      assert queue == [probe] + rest;
      if probe.id in visited || probe.depth > maxDepth {
        TurnKeepsClosed(maxDepth, probe, rest, [], visited, visited, sofar.suspects);
        assert rest + [] == rest;
        BfsCloses(s, rd, maxDepth, rest, visited, sofar);
        BfsKeeps(s, rd, maxDepth, rest, visited, sofar);
        if probe.id in visited && EventOf(s, probe.id, rd).Some? {
          VisitedReports(s, rd, visited, sofar.suspects, found, probe.id);
        }
      } else {
        VisitShrinks(s, rd, probe.id, visited);
        EventHasId(s, probe.id, rd);
        VisitKeepsFound(s, rd, probe, visited, sofar.suspects);
        var e := EventOf(s, probe.id, rd);
        if e.None? {
          TurnKeepsClosed(maxDepth, probe, rest, [], visited, visited + {probe.id}, sofar.suspects);
          assert rest + [] == rest;
          BfsCloses(s, rd, maxDepth, rest, visited + {probe.id}, sofar.(walked := sofar.walked + 1));
        } else {
          var more := sofar.suspects + [Suspect(e.value, probe.score, probe.depth)];
          var longer := rest + Children(e.value.links, probe.score, probe.depth);
          VisitKeepsClosed(maxDepth, probe, rest, e.value, visited, sofar.suspects);
          BfsCloses(s, rd, maxDepth, longer, visited + {probe.id}, Walk(more, sofar.walked + 1));
          BfsKeeps(s, rd, maxDepth, longer, visited + {probe.id}, Walk(more, sofar.walked + 1));
          VisitedReports(s, rd, visited + {probe.id}, more, found, probe.id);
          assert forall q :: q in rest ==> q in longer;
        }
      }
    }
  }

  lemma VisitedReports(s: Store, rd: Reader, visited: set<Id>, found: seq<Suspect>, all: seq<Suspect>, id: Id)
    requires VisitedIsFound(s, rd, visited, found) && found <= all && id in visited && EventOf(s, id, rd).Some?
    ensures Reports(all, id)
  {
    ReportsGrows(found, all, id);
  }

  lemma ClosedIsReported(s: Store, rd: Reader, maxDepth: int, visited: set<Id>, found: seq<Suspect>)
    requires VisitedIsFound(s, rd, visited, found) && Closed(found, maxDepth, visited, [])
    ensures forall x :: x in found ==> LinksReported(s, rd, maxDepth, x, found)
  {
    hide EventOf, Reports;
    forall x | x in found ensures LinksReported(s, rd, maxDepth, x, found) {
      assert LinksFollowed(x, maxDepth, visited, []);
    }
  }

  // When the caller asks for enough results, every readable seed is among them,
  // and with a suspect every readable event it links to, unless the link is
  // pruned or too deep.
  lemma NothingPassedOver(s: Store, session: string, id: Id, maxDepth: int, maxResults: nat, f: Formats, rd: Reader)
    requires EventOf(s, id, rd).Some?
    ensures var failure := EventOf(s, id, rd).value;
            var walk := WalkFrom(s, session, failure, id, maxDepth, f, rd);
            var reply := NarrowOf(s, session, id, maxDepth, maxResults, f, rd);
            && SeedsReported(s, rd, maxDepth, Seeds(s, session, failure, id, f, rd), walk.suspects)
            && (forall x :: x in walk.suspects ==> LinksReported(s, rd, maxDepth, x, walk.suspects))
            && (maxResults >= |walk.suspects| ==> multiset(reply.suspects) == multiset(walk.suspects))
  {
    hide EventOf, Reports, Ranked, Seeds, Bfs, LinksReported, SeedsReported, AnyLinks;
    var failure := EventOf(s, id, rd).value;
    var walk := WalkFrom(s, session, failure, id, maxDepth, f, rd);
    NoneFound(s, rd, maxDepth, Seeds(s, session, failure, id, f, rd));
    BfsCloses(s, rd, maxDepth, Seeds(s, session, failure, id, f, rd), {}, Walk([], 0));
    RankedSame(walk.suspects, f.round);
    assert |multiset(Ranked(walk.suspects, f.round))| == |multiset(walk.suspects)|;
    var ranked := Ranked(walk.suspects, f.round);
    assert ranked[..|ranked|] == ranked;
  }

  lemma NoneFound(s: Store, rd: Reader, maxDepth: int, queue: seq<Probe>)
    ensures OncePerEvent([]) && VisitedIsFound(s, rd, {}, []) && Closed([], maxDepth, {}, queue)
  {
  }

  lemma {:induction false} WithinAre(events: seq<Event>, from: int, to: int, id: Id)
    ensures forall e :: e in Within(events, from, to, id) <==>
      (e in events && e.timestamp.Some? && from <= e.timestamp.value.text <= to && e.id != id)
  {
    if events != [] {
      WithinAre(events[1..], from, to, id);
    }
  }

  // A temporal neighbour is an event of the session that the caller may see,
  // not the failure, stamped in the five seconds up to it.
  lemma NeighboursAreNear(s: Store, session: string, failure: Event, f: Formats, rd: Reader, e: Event)
    requires e in Neighbours(s, session, failure, f, rd)
    ensures Sees(rd, e) && e.session == session && e.id != failure.id
    ensures failure.timestamp.Some? && failure.timestamp.value.parsed.Some? && e.timestamp.Some?
    ensures var at := failure.timestamp.value.parsed.value;
            f.iso(Moved(at, -WINDOW_US)) <= e.timestamp.value.text <= f.iso(at)
  {
    hide Timeline, Sees;
    var at := failure.timestamp.value.parsed.value;
    var page := Timeline(s, session, "", 0, NEIGHBOUR_LIMIT, rd).events;
    WithinAre(page, f.iso(Moved(at, -WINDOW_US)), f.iso(at), failure.id);
    TimelineIsVisible(s, session, "", 0, NEIGHBOUR_LIMIT, rd, e);
  }

  // ---- how far and how high ----

  predicate Confident(links: seq<Link>) {
    forall i :: 0 <= i < |links| ==> 0.0 <= Confidence(links[i]) <= 1.0
  }

  ghost predicate AllConfident(s: Store, rd: Reader, failure: Event) {
    Confident(failure.links) && forall id :: EventOf(s, id, rd).Some? ==> Confident(EventOf(s, id, rd).value.links)
  }

  function Fading(n: nat): real { if n == 0 then 1.0 else Fading(n - 1) * HOP_DECAY }

  lemma {:induction false} DecayedFades(s: Store, rd: Reader, failure: Event, neighbours: seq<Event>, path: seq<Hop>)
    requires AllConfident(s, rd, failure) && IsTrail(s, rd, failure, neighbours, path)
    ensures 0.0 <= Decayed(path) <= Fading(|path|)
    decreases |path|
  {
    hide EventOf;
    var n := |path| - 1;
    assert 0.0 <= path[n].confidence <= 1.0;
    if n == 0 {
      assert path[..0] == [];
    } else {
      DecayedFades(s, rd, failure, neighbours, path[..n]);
    }
    Scaled(Decayed(path[..n]), path[n].confidence, Fading(n));
  }

  lemma Scaled(a: real, c: real, b: real)
    requires 0.0 <= a <= b && 0.0 <= c <= 1.0
    ensures 0.0 <= a * c * HOP_DECAY <= b * HOP_DECAY
  {
    assert a * c <= a;
  }

  lemma {:induction false} FadingFalls(m: nat, n: nat)
    requires m <= n
    ensures 0.0 <= Fading(n) <= Fading(m)
    decreases n
  {
    if n > m {
      FadingFalls(m, n - 1);
    } else if n > 0 {
      FadingFalls(m - 1, n - 1);
    }
  }

  // The twenty-first hop is below what the walk prunes.
  lemma FadesOut()
    ensures Fading(21) < NEGLIGIBLE
  {
    assert Fading(3) == 0.512;
    assert Fading(6) == 0.512 * 0.512 < 0.2622;
    FadingThree(6);
    FadingThree(9);
    FadingThree(12);
    FadingThree(15);
    FadingThree(18);
  }

  lemma FadingThree(n: nat)
    ensures Fading(n + 3) == Fading(n) * 0.512
  {
    assert Fading(n + 3) == Fading(n + 2) * HOP_DECAY && Fading(n + 2) == Fading(n + 1) * HOP_DECAY;
  }

  // With confidences between 0 and 1, a suspect at depth d scores at most 0.8^d,
  // and none lies deeper than 20 however deep the caller allows.
  lemma SuspectsFade(
    s: Store, session: string, id: Id, maxDepth: int, maxResults: nat, f: Formats, rd: Reader, x: Suspect)
    requires EventOf(s, id, rd).Some? && AllConfident(s, rd, EventOf(s, id, rd).value)
    requires x in NarrowOf(s, session, id, maxDepth, maxResults, f, rd).suspects
    ensures 1 <= x.depth <= 20 && 0.0 <= x.score <= Fading(x.depth)
    ensures x.depth > 1 ==> x.score > NEGLIGIBLE
  {
    var failure := EventOf(s, id, rd).value;
    var neighbours := Neighbours(s, session, failure, f, rd);
    SuspectsAreGrounded(s, session, id, maxDepth, maxResults, f, rd);
    hide NarrowOf, EventOf, Neighbours, Fading, Decayed;
    assert SuspectOk(s, rd, failure, neighbours, maxDepth, x);
    var path :| Leads(s, rd, failure, neighbours, path, Probe(x.event.id, x.score, x.depth));
    DecayedFades(s, rd, failure, neighbours, path);
    if x.depth > 20 {
      FadesOut();
      FadingFalls(21, x.depth);
    }
  }
}
