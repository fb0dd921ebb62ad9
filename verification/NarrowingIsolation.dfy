/** A narrowing walk, too, is blind to what its caller cannot see. */
module NarrowingIsolation {
  import opened Wrappers
  import opened Residency
  import opened ReplayReader
  import opened ReplayIsolation
  import opened Narrowing

  ghost predicate SameEvents(a: Store, b: Store, rd: Reader) {
    forall id :: EventOf(a, id, rd) == EventOf(b, id, rd)
  }

  // The walk depends on single-event reads alone, entries it cannot read included.
  lemma {:induction false} BfsAlike(
    a: Store, b: Store, rd: Reader, maxDepth: int, queue: seq<Probe>, visited: set<Id>, sofar: Walk)
    requires SameEvents(a, b, rd)
    ensures Bfs(a, rd, maxDepth, queue, visited, sofar) == Bfs(b, rd, maxDepth, queue, visited, sofar)
    decreases |Ids(a.stream) - visited|, |queue|
  {
    hide EventOf, Children;
    if queue != [] {
      var probe, rest := queue[0], queue[1..];
      if probe.id in visited || probe.depth > maxDepth {
        BfsAlike(a, b, rd, maxDepth, rest, visited, sofar);
      } else {
        VisitShrinks(a, rd, probe.id, visited);
        assert EventOf(a, probe.id, rd) == EventOf(b, probe.id, rd);
        var e := EventOf(a, probe.id, rd);
        if e.None? {
          BfsAlike(a, b, rd, maxDepth, rest, visited + {probe.id}, sofar.(walked := sofar.walked + 1));
        } else {
          BfsAlike(a, b, rd, maxDepth, rest + Children(e.value.links, probe.score, probe.depth), visited + {probe.id},
                   Walk(sofar.suspects + [Suspect(e.value, probe.score, probe.depth)], sofar.walked + 1));
        }
      }
    }
  }

  lemma TimelinesAlike(a: Store, b: Store, rd: Reader, session: string, limit: nat)
    requires SameSight(a, b, rd)
    ensures Timeline(a, session, "", 0, limit, rd) == Timeline(b, session, "", 0, limit, rd)
  {
    SessionReadsAlike(a, b, rd, session, "", 0, limit);
  }

  // Suspects, their scores and order, the number of visits and both flags are
  // the same from two stores that differ only out of the caller's sight, if single
  // events read alike from them.
  lemma NarrowingsFollowReads(
    a: Store, b: Store, rd: Reader, session: string, id: Id, maxDepth: int, maxResults: nat, f: Formats)
    requires SameSight(a, b, rd) && SameEvents(a, b, rd)
    ensures NarrowOf(a, session, id, maxDepth, maxResults, f, rd)
         == NarrowOf(b, session, id, maxDepth, maxResults, f, rd)
  {
    hide EventOf, Timeline, Erase, Within, Bfs, Ranked, LinkSeeds, NeighbourSeeds;
    TimelinesAlike(a, b, rd, session, NEIGHBOUR_LIMIT);
    TimelinesAlike(a, b, rd, session, CENSUS_LIMIT);
    var failure := EventOf(a, id, rd);
    assert failure == EventOf(b, id, rd);
    if failure.Some? {
      assert Neighbours(a, session, failure.value, f, rd) == Neighbours(b, session, failure.value, f, rd);
      BfsAlike(a, b, rd, maxDepth, Seeds(a, session, failure.value, id, f, rd), {}, Walk([], 0));
    }
  }

  // Which they do where the invisible push nothing out of the recent window.
  lemma NarrowingsAlike(
    a: Store, b: Store, rd: Reader, session: string, id: Id, maxDepth: int, maxResults: nat, f: Formats)
    requires Alike(a, b, rd)
    ensures NarrowOf(a, session, id, maxDepth, maxResults, f, rd)
         == NarrowOf(b, session, id, maxDepth, maxResults, f, rd)
  {
    hide EventOf, Erase, Sheltered, NarrowOf;
    forall x ensures EventOf(a, x, rd) == EventOf(b, x, rd) {
      EventsAlike(a, b, x, rd);
    }
    NarrowingsFollowReads(a, b, rd, session, id, maxDepth, maxResults, f);
  }

  ghost predicate NarrowingsIsolated(s: Store, rd: Reader, f: Formats) {
    forall session, id, maxDepth, maxResults: nat ::
      NarrowOf(Erase(s, rd), session, id, maxDepth, maxResults, f, rd)
      == NarrowOf(s, session, id, maxDepth, maxResults, f, rd)
  }

  // And exactly there does erasing the invisible change no walk.
  lemma NarrowingsIsolatedIff(s: Store, rd: Reader, f: Formats)
    requires UniqueIds(s.stream)
    ensures NarrowingsIsolated(s, rd, f) <==> forall p :: 0 <= p < |s.stream| ==> !PushedOut(s, p, rd)
  {
    EventReadsIsolatedIff(s, rd);
    EraseAgain(s, rd);
    hide PushedOut, Erase, EventOf, NarrowOf;
    if forall p :: 0 <= p < |s.stream| ==> !PushedOut(s, p, rd) {
      forall session, id, maxDepth, maxResults: nat
        ensures NarrowOf(Erase(s, rd), session, id, maxDepth, maxResults, f, rd)
             == NarrowOf(s, session, id, maxDepth, maxResults, f, rd)
      {
        NarrowingsFollowReads(Erase(s, rd), s, rd, session, id, maxDepth, maxResults, f);
      }
    } else {
      var p :| 0 <= p < |s.stream| && PushedOut(s, p, rd);
      var id := s.stream[p].event.id;
      PushedOutIsHidden(s, p, rd, "");
      NotFoundOrFound(s, Erase(s, rd), rd, id, f);
      assert NarrowOf(Erase(s, rd), "", id, 0, 0, f, rd) != NarrowOf(s, "", id, 0, 0, f, rd);
    }
  }

  lemma NotFoundOrFound(s: Store, t: Store, rd: Reader, id: Id, f: Formats)
    requires EventOf(s, id, rd).None? && EventOf(t, id, rd).Some?
    ensures NarrowOf(t, "", id, 0, 0, f, rd) != NarrowOf(s, "", id, 0, 0, f, rd)
  {
    hide EventOf, WalkFrom, Ranked, AnyLinks;
  }
}
