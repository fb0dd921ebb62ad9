/** Two runs, each from the opening of a conversation, after whose last response
    the session holds a decision the agent was never sent. */
module LostEntries {
  import opened Wrappers
  import opened Residency
  import opened SessionContents
  import opened Conversation
  import opened RestoreGaps
  import opened Deliveries

  lemma {:induction false} RunConcat(env: Env, c: Conv, a: seq<Step>, b: seq<Step>)
    ensures Run(env, c, a + b) == Run(env, Run(env, c, a), b)
    decreases |b|
  {
    if b == [] {
      assert a + b == a;
    } else {
      var n := |b| - 1;
      RunConcat(env, c, a, b[..n]);
      assert (a + b)[..|a + b| - 1] == a + b[..n];
    }
  }

  // The steps are a run of the conversation that ends in a response and leaves
  // something of the session undelivered.
  ghost predicate Loses(env: Env, c: Conv, steps: seq<Step>, serve: Step) {
    && Opening(c) && c.stale == {}
    && serve.Serve? && Enabled(env, Run(env, c, steps), serve)
    && !AllDelivered(Run(env, c, steps + [serve]))
  }

  lemma LosesByDelta(env: Env, c: Conv, steps: seq<Step>, cursor: Cursor)
    requires Opening(c) && c.stale == {}
    requires cursor in Run(env, c, steps).minted + Run(env, c, steps).stale
    requires !AllDelivered(AfterQuietDelta(env, Run(env, c, steps), cursor))
    ensures Loses(env, c, steps + QUIET_READS, Serve(Some(cursor), true, None))
  {
    hide AllDelivered, Opening;
    RunConcat(env, c, steps, QUIET_READS);
    QuietReadsReadIt(env, Run(env, c, steps));
    RunOne(env, c, steps + QUIET_READS, Serve(Some(cursor), true, None));
  }

  // ---- torn reads ----

  function BlankSession(): Conv {
    Conv(Doc("", [], [], map[], map[]), 0, 0, NOTHING, iset{}, {}, {}, {""})
  }

  // No step of these touches the epoch or compacts.
  lemma {:induction false} IdleEpochs(env: Env, c: Conv, steps: seq<Step>)
    requires forall s :: s in steps ==> !s.Compact? && !s.Forget? && (s.Write? ==> !s.change.category.Scratch?)
    ensures EpochRun(env, c, steps)
    decreases |steps|
  {
    if steps != [] {
      IdleEpochs(env, c, steps[..|steps| - 1]);
    }
  }

  lemma PlanAndDecisionsRead(env: Env)
    ensures var c := Run(env, BlankSession(), [Call, Read, Read]);
            c == BlankSession().(got := 2) && Inv(env, c)
  {
    var c := BlankSession();
    RunOne(env, c, [], Call);
    RunOne(env, c, [Call], Read);
    RunOne(env, c, [Call] + [Read], Read);
    assert [Call, Read, Read] == [Call] + [Read] + [Read];
    assert Reversed([]) == [];
  }

  ghost function TornMint(env: Env, torn: Conv): Cursor {
    Cursor(env.sid, EpochOf(torn.doc), Some(StampAt(2)), env.sha(torn.read.plan))
  }

  lemma TornFromBlank(env: Env)
    requires Inv(env, BlankSession().(got := 2))
    ensures var torn := Run(env, BlankSession().(got := 2), TornSteps("d", 1, "f", 2, {}));
            var serve := Serve(None, true, Some(TornMint(env, torn)));
            && Enabled(env, torn, serve)
            && !AllDelivered(AfterQuietDelta(env, Next(env, torn, serve), TornMint(env, torn)))
  {
    hide Inv, Run, AllDelivered, Enabled, Next;
    var c := BlankSession().(got := 2);
    TornReadDropsADecision(env, c, "d", 1, "f", 2, {}, TornMint(env, Run(env, c, TornSteps("d", 1, "f", 2, {}))));
  }

  lemma MintIsMinted(env: Env, c: Conv, serve: Step)
    requires serve.Serve? && serve.mint.Some? && Enabled(env, c, serve)
    ensures serve.mint.value in Next(env, c, serve).minted
  {
  }

  // No compaction, no stale cursor, no collision: the interleaving of the writes
  // with the section reads alone loses the decision.
  lemma TornReadsLose(env: Env)
    ensures exists steps, serve :: EpochRun(env, BlankSession(), steps) && Loses(env, BlankSession(), steps, serve)
  {
    hide Enabled, AllDelivered, Inv, Next, Run, TornSteps, EpochRun, Loses, AfterQuietDelta, QUIET_READS;
    var c, torn := BlankSession(), [Call, Read, Read] + TornSteps("d", 1, "f", 2, {});
    RunConcat(env, c, [Call, Read, Read], TornSteps("d", 1, "f", 2, {}));
    PlanAndDecisionsRead(env);
    TornFromBlank(env);
    var at := Run(env, c, torn);
    var mint := TornMint(env, at);
    var serve := Serve(None, true, Some(mint));
    RunOne(env, c, torn, serve);
    var minted := torn + [serve];
    MintIsMinted(env, at, serve);
    BlankOpens();
    LosesByDelta(env, c, minted, mint);
    TornIsIdle(mint);
    IdleEpochs(env, c, minted + QUIET_READS);
  }

  lemma BlankOpens()
    ensures Opening(BlankSession())
  {
    assert Reversed([]) == [];
  }

  lemma TornIsIdle(mint: Cursor)
    ensures var torn := [Call, Read, Read] + TornSteps("d", 1, "f", 2, {});
            forall s :: s in torn + [Serve(None, true, Some(mint))] + QUIET_READS ==>
              !s.Compact? && !s.Forget? && (s.Write? ==> !s.change.category.Scratch?)
  {
  }

  // ---- an evicted epoch ----

  const OLDER := EntryAt("a", 1)
  const NEWER := EntryAt("b", 2)

  // Two decisions, and nothing in the scratchpad.
  function BusySession(): Conv {
    Conv(Doc("", [NEWER, OLDER], [], map[], map[]), 2, 0, NOTHING, iset{}, {}, {}, {""})
  }

  ghost function BusyMint(env: Env): Cursor {
    Cursor(env.sid, "", Some(StampAt(2)), env.sha(""))
  }

  lemma BusyOpens()
    ensures Opening(BusySession()) && BusySession().stale == {}
  {
    ReversedSame([NEWER, OLDER]);
  }

  lemma BusyMark()
    ensures IsHighWater(DataOf(BusySession().doc), Some(StampAt(2)))
  {
    var data := DataOf(BusySession().doc);
    ReversedSame([NEWER, OLDER]);
    assert NEWER in data.decisions.value && HasStamp(NEWER, StampAt(2));
    assert Stamps(data, StampAt(2));
  }

  lemma BusyServes(env: Env)
    ensures var ready := BusySession().(got := 5, read := DataOf(BusySession().doc));
            var serve := Serve(None, true, Some(BusyMint(env)));
            var after := Next(env, ready, serve);
            && Enabled(env, ready, serve)
            && after.doc == BusySession().doc && after.now == 2 && BusyMint(env) in after.minted
  {
    hide IsHighWater;
    BusyMark();
  }

  function Name(n: nat): string { if n == 0 then "n" else Name(n - 1) + "n" }

  // The scratchpad after the compaction and n notes.
  function Noted(n: nat): map<string, string> {
    if n == 0 then map[EPOCH_KEY := "1"] else Noted(n - 1)[Name(n) := ""]
  }

  lemma {:induction false} NameLength(n: nat)
    ensures |Name(n)| == n + 1 && Name(n)[0] == 'n'
  {
    if n > 0 {
      NameLength(n - 1);
    }
  }

  lemma {:induction false} NotedAre(n: nat)
    ensures |Noted(n)| == n + 1 && EPOCH_KEY in Noted(n)
    ensures forall key :: key in Noted(n) ==> key == EPOCH_KEY || |key| <= n + 1
    ensures Name(n + 1) !in Noted(n) && Name(n + 1) != EPOCH_KEY && Name(n + 1) != ""
  {
    NameLength(n + 1);
    assert EPOCH_KEY[0] == 's';
    if n > 0 {
      NotedAre(n - 1);
      NameLength(n);
    }
  }

  function NoteStep(n: nat): Step { Write(Change(Scratch, "", Name(n)), 2, {}) }

  function NoteSteps(n: nat): seq<Step> {
    if n == 0 then [] else NoteSteps(n - 1) + [NoteStep(n)]
  }

  // The session after its compaction and n notes: the epoch is the oldest field.
  ghost predicate Compacted(c: Conv, mint: Cursor, n: nat) {
    && c.doc == BusySession().doc.(scratch := Noted(n))
    && c.now == 2 && c.delivered == iset{} && mint in c.stale
  }

  lemma CompactionBumps(env: Env, c: Conv, mint: Cursor)
    requires c.doc == BusySession().doc && c.now == 2 && mint in c.minted
    ensures Compacted(Next(env, c, Compact("1", 2, {})), mint, 0)
  {
    assert map[EPOCH_KEY := "1"] - {} == map[EPOCH_KEY := "1"];
  }

  lemma NoteIsTaken(env: Env, c: Conv, mint: Cursor, n: nat)
    requires Compacted(c, mint, n) && n + 2 <= SCRATCH_MAX
    ensures Compacted(Next(env, c, NoteStep(n + 1)), mint, n + 1)
  {
    hide Name, Noted, OLDER, NEWER;
    NotedAre(n);
    NotedAre(n + 1);
    NotedNext(n);
    assert Noted(n + 1) - {} == Noted(n + 1);
  }

  lemma NotedNext(n: nat)
    ensures Noted(n + 1) == Noted(n)[Name(n + 1) := ""]
  {
  }

  lemma {:induction false} NotesAreTaken(env: Env, c: Conv, steps: seq<Step>, mint: Cursor, n: nat)
    requires Compacted(Run(env, c, steps), mint, 0) && QuietRun(env, c, steps) && n < SCRATCH_MAX
    ensures Compacted(Run(env, c, steps + NoteSteps(n)), mint, n) && QuietRun(env, c, steps + NoteSteps(n))
  {
    hide Compacted, QuietRun, Run, Next, Name;
    if n == 0 {
      assert steps + [] == steps;
    } else {
      NotesAreTaken(env, c, steps, mint, n - 1);
      RunOne(env, c, steps + NoteSteps(n - 1), NoteStep(n));
      NoteIsTaken(env, Run(env, c, steps + NoteSteps(n - 1)), mint, n - 1);
      QuietOne(env, c, steps + NoteSteps(n - 1), NoteStep(n));
      assert steps + NoteSteps(n) == steps + NoteSteps(n - 1) + [NoteStep(n)];
    }
  }

  // Every response comes of undisturbed reads. A compaction and fifty notes are
  // enough: the fiftieth makes the scratchpad give up its oldest field, which
  // HKEYS lists first.
  lemma EvictedEpochLoses(env: Env)
    ensures exists steps, serve ::
      QuietRun(env, BusySession(), steps + [serve]) && Loses(env, BusySession(), steps, serve)
  {
    hide Enabled, AllDelivered, Next, Run, Loses, QUIET_READS, Compacted, BusySession, QuietRun, NoteSteps;
    var c, serve, bump := BusySession(), Serve(None, true, Some(BusyMint(env))), Compact("1", 2, {});
    QuietFromOpening(env, c, serve, bump);
    QuietReadsReadIt(env, c);
    BusyServes(env);
    RunOne(env, c, QUIET_READS, serve);
    RunOne(env, c, QUIET_READS + [serve], bump);
    CompactionBumps(env, Run(env, c, QUIET_READS + [serve]), BusyMint(env));
    NotesAreTaken(env, c, QUIET_READS + [serve] + [bump], BusyMint(env), SCRATCH_MAX - 1);
    BusyOpens();
    EvictedThenLost(env, c, QUIET_READS + [serve] + [bump] + NoteSteps(SCRATCH_MAX - 1));
  }

  lemma QuietFromOpening(env: Env, c: Conv, serve: Step, bump: Step)
    requires serve.Serve? && bump.Compact?
    ensures QuietRun(env, c, QUIET_READS + [serve] + [bump])
  {
    hide Run, Enabled;
    QuietRestore(env, c, [], serve);
    assert [] + QUIET_READS == QUIET_READS;
    QuietOne(env, c, QUIET_READS + [serve], bump);
  }

  ghost function Evicting(): Step {
    Write(Change(Scratch, "", Name(SCRATCH_MAX)), 2, {EPOCH_KEY})
  }

  lemma EvictedThenLost(env: Env, c: Conv, steps: seq<Step>)
    requires Opening(c) && c.stale == {} && QuietRun(env, c, steps)
    requires Compacted(Run(env, c, steps), BusyMint(env), SCRATCH_MAX - 1)
    ensures exists more, serve :: QuietRun(env, c, more + [serve]) && Loses(env, c, more, serve)
  {
    hide Opening, AllDelivered, Run, Loses, QUIET_READS, Next, Compacted, QuietRun, Name;
    var at := Run(env, c, steps);
    QuietOne(env, c, steps, Evicting());
    QuietRestore(env, c, steps + [Evicting()], Serve(Some(BusyMint(env)), true, None));
    EvictionLoses(env, at);
    RunOne(env, c, steps, Evicting());
    LosesByDelta(env, c, steps + [Evicting()], BusyMint(env));
  }

  lemma EvictionLoses(env: Env, at: Conv)
    requires Compacted(at, BusyMint(env), SCRATCH_MAX - 1)
    ensures var gone := Next(env, at, Evicting());
            BusyMint(env) in gone.stale && !AllDelivered(AfterQuietDelta(env, gone, BusyMint(env)))
  {
    hide Noted, Name, Run;
    NotedAre(SCRATCH_MAX - 1);
    var x := DecisionPiece(OLDER);
    OlderIsHeld(at);
    EvictionRevivesACursor(env, at, Name(SCRATCH_MAX), "", BusyMint(env), x);
    QuietDeltaDoc(env, Next(env, at, Evicting()), BusyMint(env));
  }

  lemma OlderIsHeld(c: Conv)
    requires c.doc.decisions == [NEWER, OLDER]
    ensures Has(DataOf(c.doc), DecisionPiece(OLDER))
  {
    ReversedSame(c.doc.decisions);
  }

  lemma QuietDeltaDoc(env: Env, c: Conv, cursor: Cursor)
    ensures AfterQuietDelta(env, c, cursor).doc == c.doc
  {
    QuietReadsReadIt(env, c);
  }
}
