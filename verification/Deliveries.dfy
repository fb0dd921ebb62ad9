/** What the agent has been sent of what its session holds, told from the
    schedule of a run alone. */
module Deliveries {
  import opened Wrappers
  import opened Residency
  import opened SessionContents
  import opened Conversation
  import opened RestoreGaps

  // ---- schedules ----

  // No write has landed between the sections read for the response to come.
  ghost predicate Undisturbed(env: Env, c: Conv, steps: seq<Step>)
    decreases |steps|
  {
    steps == [] ||
    var before, last := steps[..|steps| - 1], steps[|steps| - 1];
    if !Enabled(env, Run(env, c, before), last) then Undisturbed(env, c, before)
    else
      match last
      case Write(_, _, _) => Run(env, c, before).got == 0
      case Compact(_, _, _) => Run(env, c, before).got == 0
      case Call => true
      case Serve(_, _, _) => true
      case _ => Undisturbed(env, c, before)
  }

  // Every response comes of undisturbed reads, and no two plans of the session
  // share a digest.
  ghost predicate QuietRun(env: Env, c: Conv, steps: seq<Step>)
    decreases |steps|
  {
    steps == [] ||
    var before, last := steps[..|steps| - 1], steps[|steps| - 1];
    && QuietRun(env, c, before)
    && (Enabled(env, Run(env, c, before), last) ==>
      match last
      case Write(change, _, _) => NoCollision(env, Run(env, c, before), change)
      case Serve(_, _, _) => Undisturbed(env, c, before)
      case _ => true)
  }

  lemma StepTracks(env: Env, c: Conv, step: Step)
    requires Enabled(env, c, step)
    requires step.Call? || step.Serve? || (Tracks(c) && !step.Write? && !step.Compact?) || c.got == 0
    ensures Tracks(Next(env, c, step))
  {
  }

  lemma {:induction false} UndisturbedTracks(env: Env, c: Conv, steps: seq<Step>)
    requires c.got == 0 && Undisturbed(env, c, steps)
    ensures Tracks(Run(env, c, steps))
    decreases |steps|
  {
    hide Tracks, Enabled, Next;
    if steps == [] {
      NothingReadTracks(c);
    } else {
      var before, last := steps[..|steps| - 1], steps[|steps| - 1];
      if !Enabled(env, Run(env, c, before), last) {
        UndisturbedTracks(env, c, before);
        DisabledStays(env, Run(env, c, before), last);
      } else {
        if !(last.Write? || last.Compact? || last.Call? || last.Serve?) {
          UndisturbedTracks(env, c, before);
        }
        StepTracks(env, Run(env, c, before), last);
      }
    }
  }

  lemma NothingReadTracks(c: Conv)
    requires c.got == 0
    ensures Tracks(c)
  {
  }

  lemma DisabledStays(env: Env, c: Conv, step: Step)
    requires !Enabled(env, c, step)
    ensures Next(env, c, step) == c
  {
  }

  // Such runs meet every assumption of the delta claim.
  lemma {:induction false} QuietRunsAreHonest(env: Env, c: Conv, steps: seq<Step>)
    requires c.got == 0 && StaleIsTold(c) && QuietRun(env, c, steps) && EpochRun(env, c, steps)
    ensures HonestRun(env, c, steps) && StaleIsTold(Run(env, c, steps))
    decreases |steps|
  {
    hide Enabled, Tracks, Next, StaleIsTold, RevivesCursor, Undisturbed;
    if steps != [] {
      var before, last := steps[..|steps| - 1], steps[|steps| - 1];
      QuietRunsAreHonest(env, c, before);
      StaysTold(env, Run(env, c, before), last);
      if last.Serve? && Enabled(env, Run(env, c, before), last) {
        UndisturbedTracks(env, c, before);
        ToldIsTold(Run(env, c, before), last.since);
        TrackedReadIsClean(env, Run(env, c, before), last);
      }
    }
  }

  // ---- the claim ----

  // After a response whose own reads no write disturbed, every plan, decision,
  // progress and file entry the session holds has been delivered since the last
  // compaction, however the reads of earlier responses went, as long as those
  // that minted a cursor missed nothing older than its mark.
  lemma UndisturbedResponseDelivers(env: Env, c: Conv, steps: seq<Step>, serve: Step, x: Piece)
    requires Opening(c) && HonestRun(env, c, steps) && Undisturbed(env, c, steps)
    requires serve.Serve? && Enabled(env, Run(env, c, steps), serve) && EpochTells(Run(env, c, steps), serve.since)
    requires Has(DataOf(Run(env, c, steps + [serve]).doc), x)
    ensures x in Run(env, c, steps + [serve]).delivered
  {
    hide Has, Tracks, IsMint, Undisturbed, HonestRun;
    UndisturbedTracks(env, c, steps);
    TrackedReadIsClean(env, Run(env, c, steps), serve);
    RunOne(env, c, steps, serve);
    EverythingReadIsDelivered(env, c, steps, serve, x);
  }

  lemma TrackedReadIsClean(env: Env, c: Conv, serve: Step)
    requires serve.Serve? && Enabled(env, c, serve) && Tracks(c) && EpochTells(c, serve.since)
    ensures Honest(env, c, serve) && c.read == DataOf(c.doc) && Next(env, c, serve).doc == c.doc
  {
  }

  // So after any response at all, in every run whose reads no write disturbs,
  // whose steps revive no stale cursor, and whose plans do not collide.
  lemma SessionIsDelivered(env: Env, c: Conv, steps: seq<Step>, serve: Step, x: Piece)
    requires Opening(c) && StaleIsTold(c)
    requires QuietRun(env, c, steps + [serve]) && EpochRun(env, c, steps)
    requires serve.Serve? && Enabled(env, Run(env, c, steps), serve)
    requires Has(DataOf(Run(env, c, steps + [serve]).doc), x)
    ensures x in Run(env, c, steps + [serve]).delivered
  {
    hide Has, StaleIsTold, Tracks, NoCollision, IsMint, Undisturbed;
    assert (steps + [serve])[..|steps|] == steps && (steps + [serve])[|steps|] == serve;
    assert QuietRun(env, c, steps) && Undisturbed(env, c, steps);
    QuietRunsAreHonest(env, c, steps);
    ToldIsTold(Run(env, c, steps), serve.since);
    UndisturbedResponseDelivers(env, c, steps, serve, x);
  }

  lemma ToldIsTold(c: Conv, since: Option<Cursor>)
    requires StaleIsTold(c)
    ensures EpochTells(c, since)
  {
  }

  // ---- restores on their own are quiet ----

  lemma QuietOne(env: Env, c: Conv, steps: seq<Step>, step: Step)
    requires QuietRun(env, c, steps) && (step.Write? ==> !step.change.category.Plan?) && !step.Serve?
    ensures QuietRun(env, c, steps + [step])
    ensures step.Call? || (step.Read? && Undisturbed(env, c, steps)) ==> Undisturbed(env, c, steps + [step])
  {
    hide Run, Enabled;
    assert (steps + [step])[..|steps|] == steps && (steps + [step])[|steps|] == step;
    CallIsEnabled(env, Run(env, c, steps));
  }

  lemma CallIsEnabled(env: Env, c: Conv)
    ensures Enabled(env, c, Call)
  {
  }

  lemma QuietRestore(env: Env, c: Conv, steps: seq<Step>, serve: Step)
    requires QuietRun(env, c, steps) && serve.Serve?
    ensures QuietRun(env, c, steps + QUIET_READS + [serve])
  {
    hide Run, Enabled, QuietRun, Undisturbed;
    QuietOne(env, c, steps, Call);
    QuietOne(env, c, steps + [Call], Read);
    QuietOne(env, c, steps + [Call] + [Read], Read);
    QuietOne(env, c, steps + [Call] + [Read] + [Read], Read);
    QuietOne(env, c, steps + [Call] + [Read] + [Read] + [Read], Read);
    QuietOne(env, c, steps + [Call] + [Read] + [Read] + [Read] + [Read], Read);
    assert steps + QUIET_READS == steps + [Call] + [Read] + [Read] + [Read] + [Read] + [Read];
    QuietServe(env, c, steps + QUIET_READS, serve);
  }

  lemma QuietServe(env: Env, c: Conv, steps: seq<Step>, serve: Step)
    requires QuietRun(env, c, steps) && Undisturbed(env, c, steps) && serve.Serve?
    ensures QuietRun(env, c, steps + [serve])
  {
    hide Run, Enabled;
    assert (steps + [serve])[..|steps|] == steps && (steps + [serve])[|steps|] == serve;
  }
}
