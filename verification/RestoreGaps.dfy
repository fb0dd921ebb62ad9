/** When the assumptions of the delta claim hold, and what a restore loses when
    they do not. */
module RestoreGaps {
  import opened Wrappers
  import opened Residency
  import opened SessionContents
  import opened Conversation

  // ---- the mark and the reads behind it ----

  // Every section read so far still is what the session holds.
  predicate Tracks(c: Conv) {
    && (c.got > 0 ==> c.read.plan == c.doc.plan)
    && (c.got > 1 ==> c.read.decisions == Some(Reversed(c.doc.decisions)))
    && (c.got > 2 ==> c.read.files == Some(c.doc.files))
    && (c.got > 3 ==> c.read.progress == Some(Reversed(c.doc.progress)))
    && (c.got > 4 ==> c.read.scratch == c.doc.scratch)
  }

  const QUIET_READS: seq<Step> := [Call, Read, Read, Read, Read, Read]

  lemma RunOne(env: Env, c: Conv, steps: seq<Step>, step: Step)
    ensures Run(env, c, steps + [step]) == Next(env, Run(env, c, steps), step)
  {
    assert (steps + [step])[..|steps + [step]| - 1] == steps;
  }

  lemma QuietReadsReadIt(env: Env, c: Conv)
    ensures Run(env, c, QUIET_READS) == c.(got := 5, read := DataOf(c.doc))
  {
    var c1 := Next(env, c, Call);
    RunOne(env, c, [], Call);
    RunReads(env, c, [Call], c1);
    assert QUIET_READS == [Call] + [Read, Read, Read] + [Read] + [Read];
    RunOne(env, c, [Call] + [Read, Read, Read], Read);
    RunOne(env, c, [Call] + [Read, Read, Read] + [Read], Read);
  }

  lemma RunReads(env: Env, c: Conv, steps: seq<Step>, c1: Conv)
    requires Run(env, c, steps) == c1
    ensures Run(env, c, steps + [Read, Read, Read]) == Next(env, Next(env, Next(env, c1, Read), Read), Read)
  {
    hide Next, Run;
    RunOne(env, c, steps, Read);
    RunOne(env, c, steps + [Read], Read);
    RunOne(env, c, steps + [Read] + [Read], Read);
    assert steps + [Read, Read, Read] == steps + [Read] + [Read] + [Read];
  }

  // The state after the next restore, undisturbed and with this cursor.
  ghost function AfterQuietDelta(env: Env, c: Conv, cursor: Cursor): Conv {
    Next(env, Run(env, c, QUIET_READS), Serve(Some(cursor), true, None))
  }

  ghost predicate AllDelivered(c: Conv) {
    forall x :: Has(DataOf(c.doc), x) ==> x in c.delivered
  }

  // A clean read is exactly what the cursor needs: whether the delta it later
  // buys completes the agent's picture depends on nothing else.
  lemma DeltaCompletesIffReadWasClean(env: Env, c: Conv, since: Option<Cursor>, mint: Cursor)
    requires Inv(env, c) && Enabled(env, c, Serve(since, true, Some(mint))) && EpochTells(c, since)
    ensures AllDelivered(AfterQuietDelta(env, Next(env, c, Serve(since, true, Some(mint))), mint))
            <==> ReadIsClean(env, c, mint)
  {
    var served := Next(env, c, Serve(since, true, Some(mint)));
    var final := AfterQuietDelta(env, served, mint);
    QuietReadsReadIt(env, served);
    forall x | Has(DataOf(c.doc), x)
      ensures x in final.delivered <==> x in served.delivered || Resends(env, mint, x)
      ensures x in served.delivered <==> x in c.delivered || Has(c.read, x)
    {
      ServedIffRead(env, c, since, mint, x);
      QuietDeltaAdds(env, served, mint, x);
    }
  }

  lemma ServedIffRead(env: Env, c: Conv, since: Option<Cursor>, mint: Cursor, x: Piece)
    requires Inv(env, c) && Enabled(env, c, Serve(since, true, Some(mint))) && EpochTells(c, since)
    ensures x in Next(env, c, Serve(since, true, Some(mint))).delivered <==> x in c.delivered || Has(c.read, x)
  {
    if Has(c.read, x) {
      assert Enabled(env, c, Serve(since, true, None));
      ServeDelivers(env, c, since, true, x);
    }
    if Filterable(c.read, since, env.sid, Some(EpochOf(c.doc))) {
      DeltaCarries(env, c.read, since.value, x);
    }
  }

  lemma QuietDeltaAdds(env: Env, c: Conv, cursor: Cursor, x: Piece)
    requires cursor in c.minted + c.stale && cursor.sid == env.sid && cursor.epoch == EpochOf(c.doc)
    requires Has(DataOf(c.doc), x)
    ensures AfterQuietDelta(env, c, cursor).doc == c.doc
    ensures x in AfterQuietDelta(env, c, cursor).delivered <==> x in c.delivered || Resends(env, cursor, x)
  {
    QuietReadsReadIt(env, c);
    var ready := Run(env, c, QUIET_READS);
    assert Enabled(env, ready, Serve(Some(cursor), true, None));
    if cursor.hw.Some? {
      DeltaCarries(env, ready.read, cursor, x);
    }
  }

  // Two writes that land while the restore has the plan and the decisions but
  // not yet the files.
  function TornSteps(content: string, early: int, path: Path, late: int, gone: set<string>): seq<Step> {
    [Write(Change(Decision, content, ""), early, {}), Write(Change(File, "", path), late, gone), Read, Read, Read]
  }

  lemma TornState(env: Env, c: Conv, content: string, early: int, path: Path, late: int, gone: set<string>)
    requires Inv(env, c) && "" in c.plans && c.got == 2 && c.now <= early < late && path != ""
    requires GivesUp(c.doc, Change(File, "", path), late, gone)
    ensures var torn := Run(env, c, TornSteps(content, early, path, late, gone));
            && Inv(env, torn) && torn.got == 5 && torn.now == late && torn.delivered == c.delivered
            && torn.doc.decisions == Pushed(c.doc.decisions, EntryAt(content, early), DECISIONS_MAX)
            && torn.read.decisions == c.read.decisions
            && torn.read.files == Some(c.doc.files[path := EntryAt("", late)] - gone)
  {
    var decide, touch := Write(Change(Decision, content, ""), early, {}), Write(Change(File, "", path), late, gone);
    var c1 := Next(env, c, decide);
    var c2 := Next(env, c1, touch);
    assert TornSteps(content, early, path, late, gone) == [decide] + [touch] + [Read, Read, Read];
    RunOne(env, c, [], decide);
    RunOne(env, c, [decide], touch);
    RunReads(env, c, [decide] + [touch], c2);
    WriteKeepsInv(env, c, decide.change, early, {});
    WriteKeepsInv(env, c1, touch.change, late, gone);
    ThreeReads(env, c2);
  }

  lemma ThreeReads(env: Env, c: Conv)
    requires Inv(env, c) && c.got == 2
    ensures var after := Next(env, Next(env, Next(env, c, Read), Read), Read);
            && Inv(env, after) && after.got == 5
            && after == c.(got := 5, read := after.read)
            && after.read.decisions == c.read.decisions && after.read.files == Some(c.doc.files)
  {
    ReadKeepsInv(env, c);
    ReadKeepsInv(env, Next(env, c, Read));
    ReadKeepsInv(env, Next(env, Next(env, c, Read), Read));
  }

  // The decision, written before the newest entry read and after the decisions
  // were read, is withheld by the next delta: it has never been delivered.
  lemma TornReadDropsADecision(
    env: Env, c: Conv, content: string, early: int, path: Path, late: int, gone: set<string>, mint: Cursor)
    requires Inv(env, c) && "" in c.plans && c.got == 2 && c.now <= early < late && path != ""
    requires DecisionPiece(EntryAt(content, early)) !in c.delivered
    requires !Has(c.read, DecisionPiece(EntryAt(content, early)))
    requires GivesUp(c.doc, Change(File, "", path), late, gone) && path !in gone
    requires var torn := Run(env, c, TornSteps(content, early, path, late, gone));
             mint == Cursor(env.sid, EpochOf(torn.doc), Some(StampAt(late)), env.sha(torn.read.plan))
    ensures var torn := Run(env, c, TornSteps(content, early, path, late, gone));
            && Enabled(env, torn, Serve(None, true, Some(mint)))
            && !AllDelivered(AfterQuietDelta(env, Next(env, torn, Serve(None, true, Some(mint))), mint))
  {
    TornState(env, c, content, early, path, late, gone);
    var torn := Run(env, c, TornSteps(content, early, path, late, gone));
    var lost := DecisionPiece(EntryAt(content, early));
    MarkIsNewest(torn, path, late);
    DeltaCompletesIffReadWasClean(env, torn, None, mint);
    assert Has(DataOf(torn.doc), lost) by {
      ReversedSame(torn.doc.decisions);
      assert torn.doc.decisions[0] == EntryAt(content, early);
    }
    assert !Has(torn.read, lost) && !Resends(env, mint, lost);
  }

  lemma MarkIsNewest(torn: Conv, path: Path, late: int)
    requires DataUpTo(torn.read, late) && torn.read.files.Some?
    requires path in torn.read.files.value && torn.read.files.value[path] == EntryAt("", late)
    ensures IsHighWater(torn.read, Some(StampAt(late)))
  {
    assert HasStamp(torn.read.files.value[path], StampAt(late));
    assert Stamps(torn.read, StampAt(late));
    forall s | Stamps(torn.read, s) ensures s.text <= late {
    }
  }

  // ---- the epoch ----

  // No cursor from before a compaction passes for a current one.
  predicate StaleIsTold(c: Conv) {
    forall cursor | cursor in c.stale :: cursor.epoch != EpochOf(c.doc)
  }

  // The epoch a write leaves: "" if its own field is given up.
  function EpochAfter(c: Conv, change: Change, gone: set<string>): string {
    if !change.category.Scratch? then EpochOf(c.doc)
    else if EPOCH_KEY in gone then ""
    else if change.key == EPOCH_KEY then change.content
    else EpochOf(c.doc)
  }

  // The steps after which a stale cursor matches, told from the state before.
  predicate RevivesCursor(c: Conv, step: Step) {
    match step
    case Write(change, _, gone) =>
      change.category.Scratch? && exists cursor | cursor in c.stale :: cursor.epoch == EpochAfter(c, change, gone)
    case Compact(epoch, _, gone) =>
      exists cursor | cursor in c.minted + c.stale :: cursor.epoch == EpochAfter(c, Bump(epoch), gone)
    case Forget => exists cursor | cursor in c.minted :: cursor.epoch == EpochOf(c.doc)
    case _ => false
  }

  lemma StaleIsToldUnless(env: Env, c: Conv, step: Step)
    requires StaleIsTold(c) && Enabled(env, c, step)
    ensures StaleIsTold(Next(env, c, step)) <==> !RevivesCursor(c, step)
  {
  }

  ghost predicate EpochRun(env: Env, c: Conv, steps: seq<Step>)
    decreases |steps|
  {
    steps == [] ||
    var before, last := steps[..|steps| - 1], steps[|steps| - 1];
    EpochRun(env, c, before) && (Enabled(env, Run(env, c, before), last) ==> !RevivesCursor(Run(env, c, before), last))
  }

  // Over whole runs: stale cursors are told apart all along exactly if no step
  // revives one.
  lemma {:induction false} StaleIsToldIff(env: Env, c: Conv, steps: seq<Step>)
    requires StaleIsTold(c)
    ensures (forall k :: 0 <= k <= |steps| ==> StaleIsTold(Run(env, c, steps[..k]))) <==> EpochRun(env, c, steps)
    decreases |steps|
  {
    hide StaleIsTold, RevivesCursor, Next;
    assert steps[..|steps|] == steps;
    if steps != [] {
      var n := |steps| - 1;
      var before, last := steps[..n], steps[n];
      StaleIsToldIff(env, c, before);
      assert forall k :: 0 <= k <= n ==> before[..k] == steps[..k];
      assert Run(env, c, steps) == Next(env, Run(env, c, before), last);
      if StaleIsTold(Run(env, c, before)) {
        StaysTold(env, Run(env, c, before), last);
      }
    } else {
      assert Run(env, c, []) == c;
    }
  }

  lemma StaysTold(env: Env, c: Conv, step: Step)
    requires StaleIsTold(c)
    ensures StaleIsTold(Next(env, c, step)) <==> Enabled(env, c, step) ==> !RevivesCursor(c, step)
  {
    hide StaleIsTold, RevivesCursor;
    if Enabled(env, c, step) {
      StaleIsToldUnless(env, c, step);
    }
  }

  // A discipline that is enough: unused epochs at every compaction, none
  // unannounced, and the epoch's field left alone otherwise.
  predicate EpochCareful(c: Conv, step: Step) {
    match step
    case Write(change, _, gone) => !(change.category.Scratch? && (change.key == EPOCH_KEY || EPOCH_KEY in gone))
    case Compact(epoch, _, gone) =>
      EPOCH_KEY !in gone && forall cursor | cursor in c.minted + c.stale :: cursor.epoch != epoch
    case Forget => false
    case _ => true
  }

  ghost predicate EpochCarefulRun(env: Env, c: Conv, steps: seq<Step>)
    decreases |steps|
  {
    steps == [] ||
    (EpochCarefulRun(env, c, steps[..|steps| - 1])
     && EpochCareful(Run(env, c, steps[..|steps| - 1]), steps[|steps| - 1]))
  }

  lemma {:induction false} CarefulEpochsTell(env: Env, c: Conv, steps: seq<Step>)
    requires StaleIsTold(c) && EpochCarefulRun(env, c, steps)
    ensures EpochRun(env, c, steps) && StaleIsTold(Run(env, c, steps))
    decreases |steps|
  {
    if steps != [] {
      var before, last := steps[..|steps| - 1], steps[|steps| - 1];
      CarefulEpochsTell(env, c, before);
      CarefulRevivesNone(Run(env, c, before), last);
      StaysTold(env, Run(env, c, before), last);
      hide Enabled, StaleIsTold, RevivesCursor, Next;
    }
  }

  lemma CarefulRevivesNone(c: Conv, step: Step)
    requires StaleIsTold(c) && EpochCareful(c, step)
    ensures !RevivesCursor(c, step)
  {
  }

  // The epoch is one scratch field among fifty: a full scratchpad may evict it,
  // and a cursor from before the first compaction then passes for a current one.
  lemma EvictionRevivesACursor(env: Env, c: Conv, key: string, content: string, prior: Cursor, x: Piece)
    requires |c.doc.scratch| == SCRATCH_MAX && EPOCH_KEY in c.doc.scratch && key !in c.doc.scratch && key != ""
    requires prior in c.stale && prior.sid == env.sid && prior.epoch == ""
    requires Has(DataOf(c.doc), x) && x !in c.delivered && !Resends(env, prior, x)
    ensures var write := Write(Change(Scratch, content, key), c.now, {EPOCH_KEY});
            Enabled(env, c, write) && Honest(env, c, write)
            && Has(DataOf(Next(env, c, write).doc), x)
            && x !in AfterQuietDelta(env, Next(env, c, write), prior).delivered
  {
    var write := Write(Change(Scratch, content, key), c.now, {EPOCH_KEY});
    var fuller := c.doc.scratch[key := content];
    assert |fuller| == SCRATCH_MAX + 1;
    QuietDeltaAdds(env, Next(env, c, write), prior, x);
  }
}
