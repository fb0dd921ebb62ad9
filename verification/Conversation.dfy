/** ctx_get_shadow over a whole conversation: writes by anyone, compactions of
    the agent's context, and restores whose section reads interleave with both. */
module Conversation {
  import opened Wrappers
  import opened Residency
  import opened SessionContents

  const EPOCH_KEY := "shadow_epoch"

  // The session the conversation restores, and plan_sha_of's digest.
  datatype Env = Env(sid: string, sha: string -> string)

  datatype Piece =
    | PlanPiece(text: string)
    | DecisionPiece(item: Item)
    | ProgressPiece(item: Item)
    | FilePiece(path: Path, item: Item)
    | ScratchPiece(key: string, value: string)

  predicate Has(data: Data, x: Piece) {
    match x
    case PlanPiece(text) => text != "" && data.plan == text
    case DecisionPiece(item) => data.decisions.Some? && item in data.decisions.value
    case ProgressPiece(item) => data.progress.Some? && item in data.progress.value
    case FilePiece(path, item) => data.files.Some? && path in data.files.value && data.files.value[path] == item
    case ScratchPiece(key, value) => key in data.scratch && data.scratch[key] == value
  }

  // `read` is the restore in progress: get_session_data's five reads happen one
  // at a time, `got` of them so far. `delivered` is what responses have carried
  // since the last compaction, `minted` the cursors they carried, `stale` the
  // cursors from before it. `plans` is every plan the session has had.
  datatype Conv = Conv(
    doc: Doc,
    now: int,
    got: nat,
    read: Data,
    delivered: iset<Piece>,
    minted: set<Cursor>,
    stale: set<Cursor>,
    plans: set<string>)

  datatype Step =
    | Write(change: Change, now: int, gone: set<string>)
    | Compact(epoch: string, now: int, gone: set<string>)
    | Forget
    | Call
    | Read
    | Serve(since: Option<Cursor>, epochRead: bool, mint: Option<Cursor>)

  // Compact is a compaction announced by the pre-compaction hook, Forget one that
  // no hook announced.

  const NOTHING := Data("", Some([]), Some([]), Some(map[]), map[])

  function EpochOf(doc: Doc): string {
    if EPOCH_KEY in doc.scratch then doc.scratch[EPOCH_KEY] else ""
  }

  // The pre-compaction hook invalidates cursors through an ordinary update.
  function Bump(epoch: string): Change { Change(Scratch, epoch, EPOCH_KEY) }

  function Section(read: Data, doc: Doc, got: nat): Data {
    match got
    case 0 => read.(plan := doc.plan)
    case 1 => read.(decisions := Some(Reversed(doc.decisions)))
    case 2 => read.(files := Some(doc.files))
    case 3 => read.(progress := Some(Reversed(doc.progress)))
    case _ => read.(scratch := doc.scratch)
  }

  // What the response renders: everything, unless a delta is served.
  function Shown(env: Env, data: Data, since: Option<Cursor>, epoch: Option<string>): Data {
    if Filterable(data, since, env.sid, epoch) then Delta(data, since.value, env.sha) else data
  }

  // A cursor describes the full data, whatever the response carried.
  ghost predicate Describes(env: Env, data: Data, epoch: string, cursor: Cursor) {
    && cursor.sid == env.sid && cursor.epoch == epoch
    && cursor.planSha == env.sha(data.plan)
    && IsHighWater(data, cursor.hw)
  }

  // ctx_get_shadow once the data and the epoch are read; None is a failed read.
  method GetShadow(env: Env, data: Data, since: Option<Cursor>, epoch: Option<string>)
    returns (rendered: Data, delta: bool, cursor: Option<Cursor>)
    ensures rendered == Shown(env, data, since, epoch)
    ensures delta <==> Filterable(data, since, env.sid, epoch)
    ensures delta <==>
      && since.Some? && since.value.sid == env.sid && epoch == Some(since.value.epoch) && since.value.hw.Some?
      && data.decisions.Some? && data.progress.Some? && data.files.Some?
    ensures delta ==> IsDelta(data, rendered, since.value, env.sha)
    ensures !delta ==> rendered == data
    ensures cursor.Some? <==> epoch.Some?
    ensures cursor.Some? ==> Describes(env, data, epoch.value, cursor.value)
  {
    if epoch.None? {
      return data, false, None;
    }
    var omitted;
    hide IsDelta;
    rendered, omitted := FilterSince(data, since, env.sid, epoch, env.sha);
    var hw := HighWaterOf(data);
    return rendered, omitted.Some?, Some(Cursor(env.sid, epoch.value, hw, env.sha(data.plan)));
  }

  function Rendered(env: Env, c: Conv, since: Option<Cursor>, epochRead: bool): Data {
    Shown(env, c.read, since, if epochRead then Some(EpochOf(c.doc)) else None)
  }

  ghost predicate IsMint(env: Env, c: Conv, cursor: Cursor) {
    Describes(env, c.read, EpochOf(c.doc), cursor)
  }

  predicate CanWrite(c: Conv, change: Change, now: int, gone: set<string>) {
    c.now <= now && !Refused(change) && GivesUp(c.doc, change, now, gone)
  }

  ghost predicate Enabled(env: Env, c: Conv, step: Step) {
    match step
    case Write(change, now, gone) => CanWrite(c, change, now, gone)
    case Compact(epoch, now, gone) => CanWrite(c, Bump(epoch), now, gone)
    case Forget => true
    case Call => true
    case Read => c.got < 5
    case Serve(since, epochRead, mint) =>
      && c.got == 5
      && (since.Some? && since.value.sid == env.sid ==> since.value in c.minted + c.stale)
      && (mint.Some? ==> epochRead && IsMint(env, c, mint.value))
  }

  function Written(c: Conv, change: Change, now: int, gone: set<string>): Conv {
    c.(doc := Wrote(c.doc, change, now, gone), now := now,
       plans := if change.category.Plan? then c.plans + {change.content} else c.plans)
  }

  ghost function Forgotten(c: Conv): Conv {
    c.(delivered := iset{}, minted := {}, stale := c.minted + c.stale)
  }

  ghost function Next(env: Env, c: Conv, step: Step): Conv {
    if !Enabled(env, c, step) then c
    else
      match step
      case Write(change, now, gone) => Written(c, change, now, gone)
      case Compact(epoch, now, gone) =>
        Forgotten(Written(c, Bump(epoch), now, gone))
      case Forget => Forgotten(c)
      case Call => c.(got := 0, read := NOTHING)
      case Read => c.(got := c.got + 1, read := Section(c.read, c.doc, c.got))
      case Serve(since, epochRead, mint) =>
        c.(got := 0, read := NOTHING,
           delivered := c.delivered + (iset x | Has(Rendered(env, c, since, epochRead), x)),
           minted := if mint.Some? then c.minted + {mint.value} else c.minted)
  }

  ghost function Run(env: Env, c: Conv, steps: seq<Step>): Conv
    decreases |steps|
  {
    if steps == [] then c
    else Next(env, Run(env, c, steps[..|steps| - 1]), steps[|steps| - 1])
  }

  // ---- the claim's assumptions, each a condition on the step about to be taken ----

  // A cursor from before a compaction carries another epoch than the present one.
  predicate EpochTells(c: Conv, since: Option<Cursor>) {
    since.Some? && since.value in c.stale ==> since.value.epoch != EpochOf(c.doc)
  }

  // Whatever was written behind the restore's back carries no older stamp than
  // the newest entry the restore did read.
  ghost predicate ReadIsClean(env: Env, c: Conv, mint: Cursor) {
    forall x :: Has(DataOf(c.doc), x) && !Has(c.read, x) && x !in c.delivered ==> Resends(env, mint, x)
  }

  predicate NoCollision(env: Env, c: Conv, change: Change) {
    change.category.Plan? ==> forall p | p in c.plans :: env.sha(p) == env.sha(change.content) ==> p == change.content
  }

  ghost predicate Honest(env: Env, c: Conv, step: Step) {
    match step
    case Write(change, _, _) => NoCollision(env, c, change)
    case Serve(since, _, mint) => EpochTells(c, since) && (mint.Some? ==> ReadIsClean(env, c, mint.value))
    case _ => true
  }

  ghost predicate HonestRun(env: Env, c: Conv, steps: seq<Step>)
    decreases |steps|
  {
    steps == [] ||
    var before := steps[..|steps| - 1];
    var last := steps[|steps| - 1];
    HonestRun(env, c, before) && (Enabled(env, Run(env, c, before), last) ==> Honest(env, Run(env, c, before), last))
  }

  // ---- what a delta carries ----

  // A delta from this cursor would carry x.
  predicate Resends(env: Env, cursor: Cursor, x: Piece) {
    match x
    case PlanPiece(text) => cursor.hw.None? || env.sha(text) != cursor.planSha
    case DecisionPiece(item) => cursor.hw.None? || KeepItem(item, cursor.hw.value)
    case ProgressPiece(item) => cursor.hw.None? || KeepItem(item, cursor.hw.value)
    case FilePiece(_, item) => cursor.hw.None? || KeepItem(item, cursor.hw.value)
    case ScratchPiece(_, _) => true
  }

  lemma DeltaCarries(env: Env, data: Data, cursor: Cursor, x: Piece)
    requires cursor.hw.Some? && data.decisions.Some? && data.progress.Some? && data.files.Some?
    ensures Has(Delta(data, cursor, env.sha), x) <==> Has(data, x) && Resends(env, cursor, x)
  {
    KeptItemsAre(data.decisions.value, cursor.hw.value);
    KeptItemsAre(data.progress.value, cursor.hw.value);
  }

  // ---- the invariant ----

  predicate ItemUpTo(item: Item, now: int) {
    || item.Odd? || item.stamp.None?
    || (item.stamp.value == StampAt(item.stamp.value.text) && item.stamp.value.text <= now)
  }

  ghost predicate DataUpTo(data: Data, now: int) {
    && data.decisions.Some? && data.progress.Some? && data.files.Some?
    && (forall item :: item in data.decisions.value ==> ItemUpTo(item, now))
    && (forall item :: item in data.progress.value ==> ItemUpTo(item, now))
    && (forall p :: p in data.files.value ==> ItemUpTo(data.files.value[p], now))
  }

  predicate MarkUpTo(cursor: Cursor, now: int) {
    cursor.hw.Some? ==> cursor.hw.value == StampAt(cursor.hw.value.text) && cursor.hw.value.text <= now
  }

  ghost predicate PlanKnown(env: Env, c: Conv, cursor: Cursor) {
    exists p :: p in c.plans && env.sha(p) == cursor.planSha && (p == "" || PlanPiece(p) in c.delivered)
  }

  ghost predicate Covers(env: Env, c: Conv, data: Data, cursor: Cursor) {
    forall x :: Has(data, x) ==> x in c.delivered || Resends(env, cursor, x)
  }

  ghost predicate CursorOk(env: Env, c: Conv, cursor: Cursor) {
    && MarkUpTo(cursor, c.now) && PlanKnown(env, c, cursor)
    && Covers(env, c, DataOf(c.doc), cursor) && Covers(env, c, c.read, cursor)
  }

  ghost predicate Inv(env: Env, c: Conv) {
    && DataUpTo(DataOf(c.doc), c.now) && DataUpTo(c.read, c.now)
    && c.doc.plan in c.plans && c.read.plan in c.plans
    && (forall cursor :: cursor in c.minted ==> CursorOk(env, c, cursor))
  }

  // A conversation may open on a session with any well-stamped content.
  ghost predicate Opening(c: Conv) {
    && DataUpTo(DataOf(c.doc), c.now) && c.got == 0 && c.read == NOTHING
    && c.delivered == iset{} && c.minted == {} && c.plans == {"", c.doc.plan}
  }

  lemma ReversedSame(items: seq<Item>)
    ensures forall item :: item in Reversed(items) <==> item in items
  {
    forall item | item in items ensures item in Reversed(items) {
      var i :| 0 <= i < |items| && items[i] == item;
      assert Reversed(items)[|items| - 1 - i] == item;
    }
  }

  // What a write leaves in the session was there before, or is its own entry.
  lemma WriteAdds(doc: Doc, change: Change, now: int, gone: set<string>, x: Piece)
    requires Has(DataOf(Wrote(doc, change, now, gone)), x)
    ensures Has(DataOf(doc), x) ||
            match x
            case PlanPiece(text) => change.category.Plan? && text == change.content
            case ScratchPiece(key, value) => change.category.Scratch? && key == change.key && value == change.content
            case DecisionPiece(item) => change.category.Decision? && item == EntryAt(change.content, now)
            case ProgressPiece(item) => change.category.Progress? && item == EntryAt(change.content, now)
            case FilePiece(path, item) =>
              change.category.File? && path == change.key && item == EntryAt(change.content, now)
  {
    var after := Wrote(doc, change, now, gone);
    ReversedSame(doc.decisions);
    ReversedSame(doc.progress);
    ReversedSame(after.decisions);
    ReversedSame(after.progress);
  }

  lemma WriteKeepsStamps(c: Conv, change: Change, now: int, gone: set<string>)
    requires DataUpTo(DataOf(c.doc), c.now) && c.now <= now
    ensures DataUpTo(DataOf(Wrote(c.doc, change, now, gone)), now)
  {
    var after := DataOf(Wrote(c.doc, change, now, gone));
    forall item | item in after.decisions.value ensures ItemUpTo(item, now) {
      WriteAdds(c.doc, change, now, gone, DecisionPiece(item));
    }
    forall item | item in after.progress.value ensures ItemUpTo(item, now) {
      WriteAdds(c.doc, change, now, gone, ProgressPiece(item));
    }
    forall p | p in after.files.value ensures ItemUpTo(after.files.value[p], now) {
      WriteAdds(c.doc, change, now, gone, FilePiece(p, after.files.value[p]));
    }
  }

  lemma WriteKeepsCursor(env: Env, c: Conv, change: Change, now: int, gone: set<string>, cursor: Cursor)
    requires CursorOk(env, c, cursor) && c.now <= now && NoCollision(env, c, change)
    ensures CursorOk(env, Written(c, change, now, gone), cursor)
  {
    var after := Written(c, change, now, gone);
    var p :| p in c.plans && env.sha(p) == cursor.planSha && (p == "" || PlanPiece(p) in c.delivered);
    assert p in after.plans;
    forall x | Has(DataOf(after.doc), x) ensures x in after.delivered || Resends(env, cursor, x) {
      WriteAdds(c.doc, change, now, gone, x);
    }
  }

  lemma WriteKeepsInv(env: Env, c: Conv, change: Change, now: int, gone: set<string>)
    requires Inv(env, c) && CanWrite(c, change, now, gone) && NoCollision(env, c, change)
    ensures Inv(env, Written(c, change, now, gone))
  {
    WriteKeepsStamps(c, change, now, gone);
    forall cursor | cursor in c.minted ensures CursorOk(env, Written(c, change, now, gone), cursor) {
      WriteKeepsCursor(env, c, change, now, gone, cursor);
    }
  }

  lemma ReadKeepsInv(env: Env, c: Conv)
    requires Inv(env, c) && c.got < 5
    ensures Inv(env, Next(env, c, Read))
  {
    var after := Next(env, c, Read);
    assert forall x :: Has(after.read, x) ==> Has(c.read, x) || Has(DataOf(c.doc), x);
    forall cursor | cursor in c.minted ensures CursorOk(env, after, cursor) {
      var p :| p in c.plans && env.sha(p) == cursor.planSha && (p == "" || PlanPiece(p) in c.delivered);
      assert p in after.plans;
    }
  }

  // A response carries every piece read that was not delivered already.
  lemma ServeDelivers(env: Env, c: Conv, since: Option<Cursor>, epochRead: bool, x: Piece)
    requires Inv(env, c) && Enabled(env, c, Serve(since, epochRead, None)) && EpochTells(c, since)
    requires Has(c.read, x)
    ensures x in c.delivered || Has(Rendered(env, c, since, epochRead), x)
  {
    if epochRead && Filterable(c.read, since, env.sid, Some(EpochOf(c.doc))) {
      DeltaCarries(env, c.read, since.value, x);
      assert CursorOk(env, c, since.value);
    }
  }

  lemma MintIsUpTo(env: Env, c: Conv, mint: Cursor)
    requires DataUpTo(c.read, c.now) && IsMint(env, c, mint)
    ensures MarkUpTo(mint, c.now)
  {
    if mint.hw.Some? {
      assert Stamps(c.read, mint.hw.value);
    }
  }

  lemma ServeKeepsCursor(
    env: Env, c: Conv, since: Option<Cursor>, epochRead: bool, mint: Option<Cursor>, cursor: Cursor)
    requires Inv(env, c) && Enabled(env, c, Serve(since, epochRead, mint)) && cursor in c.minted
    ensures CursorOk(env, Next(env, c, Serve(since, epochRead, mint)), cursor)
  {
    var after := Next(env, c, Serve(since, epochRead, mint));
    assert CursorOk(env, c, cursor);
    var p :| p in c.plans && env.sha(p) == cursor.planSha && (p == "" || PlanPiece(p) in c.delivered);
    assert p in after.plans && after.doc == c.doc;
    assert forall x :: x in c.delivered ==> x in after.delivered;
  }

  lemma ServeMintsCursor(env: Env, c: Conv, since: Option<Cursor>, epochRead: bool, mint: Cursor)
    requires Inv(env, c) && Enabled(env, c, Serve(since, epochRead, Some(mint)))
    requires EpochTells(c, since) && ReadIsClean(env, c, mint)
    ensures CursorOk(env, Next(env, c, Serve(since, epochRead, Some(mint))), mint)
  {
    var after := Next(env, c, Serve(since, epochRead, Some(mint)));
    MintIsUpTo(env, c, mint);
    assert Enabled(env, c, Serve(since, epochRead, None));
    forall x | Has(c.read, x) ensures x in after.delivered {
      ServeDelivers(env, c, since, epochRead, x);
    }
    assert PlanKnown(env, after, mint) by {
      assert c.read.plan in after.plans && env.sha(c.read.plan) == mint.planSha;
      assert c.read.plan == "" || Has(c.read, PlanPiece(c.read.plan));
    }
    assert after.doc == c.doc;
  }

  lemma StepKeepsInv(env: Env, c: Conv, step: Step)
    requires Inv(env, c) && "" in c.plans && Enabled(env, c, step) && Honest(env, c, step)
    ensures Inv(env, Next(env, c, step))
  {
    match step
    case Write(change, now, gone) => WriteKeepsInv(env, c, change, now, gone);
    case Compact(epoch, now, gone) => WriteKeepsInv(env, c, Bump(epoch), now, gone);
    case Forget =>
    case Call => CallKeepsInv(env, c);
    case Read => ReadKeepsInv(env, c);
    case Serve(since, epochRead, mint) =>
      forall cursor | cursor in Next(env, c, step).minted ensures CursorOk(env, Next(env, c, step), cursor) {
        if cursor in c.minted {
          ServeKeepsCursor(env, c, since, epochRead, mint, cursor);
        } else {
          ServeMintsCursor(env, c, since, epochRead, mint.value);
        }
      }
  }

  lemma CallKeepsInv(env: Env, c: Conv)
    requires Inv(env, c) && "" in c.plans
    ensures Inv(env, Next(env, c, Call))
  {
    var after := Next(env, c, Call);
    forall cursor | cursor in c.minted ensures CursorOk(env, after, cursor) {
      var p :| p in c.plans && env.sha(p) == cursor.planSha && (p == "" || PlanPiece(p) in c.delivered);
      assert p in after.plans;
    }
  }

  lemma {:induction false} RunKeepsInv(env: Env, c: Conv, steps: seq<Step>)
    requires Opening(c) && HonestRun(env, c, steps)
    ensures Inv(env, Run(env, c, steps)) && "" in Run(env, c, steps).plans
    decreases |steps|
  {
    if steps != [] {
      var before := steps[..|steps| - 1];
      RunKeepsInv(env, c, before);
      if Enabled(env, Run(env, c, before), steps[|steps| - 1]) {
        StepKeepsInv(env, Run(env, c, before), steps[|steps| - 1]);
      }
    }
  }

  // After any response of any honest run, everything the restore read has been
  // delivered since the last compaction, by this response or an earlier one.
  lemma EverythingReadIsDelivered(env: Env, c: Conv, steps: seq<Step>, serve: Step, x: Piece)
    requires Opening(c) && HonestRun(env, c, steps)
    requires serve.Serve? && Enabled(env, Run(env, c, steps), serve) && Honest(env, Run(env, c, steps), serve)
    requires Has(Run(env, c, steps).read, x)
    ensures x in Run(env, c, steps + [serve]).delivered
  {
    RunKeepsInv(env, c, steps);
    var at := Run(env, c, steps);
    assert Enabled(env, at, Serve(serve.since, serve.epochRead, None));
    ServeDelivers(env, at, serve.since, serve.epochRead, x);
    assert (steps + [serve])[..|steps + [serve]| - 1] == steps;
  }
}
