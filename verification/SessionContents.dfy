/** What SessionManager.update writes and get_session_data reads back: the plan,
    the two capped lists (newest first), the capped file and scratch hashes. */
module SessionContents {
  import opened Wrappers
  import opened Residency

  const PLAN_MAX_BYTES := 10240
  const DECISIONS_MAX := 50
  const PROGRESS_MAX := 50
  const FILES_MAX := 100
  const SCRATCH_MAX := 50

  datatype Doc = Doc(
    plan: string,
    decisions: seq<Item>,
    progress: seq<Item>,
    files: map<Path, Item>,
    scratch: map<string, string>)

  datatype Category = Plan | Decision | File | Progress | Scratch | Unknown

  datatype Change = Change(category: Category, content: string, key: string)

  // The writers stamp in UTC with isoformat(), which sorts as the clock does.
  function StampAt(now: int): Stamp { Stamp(now, Some(Aware(now))) }

  function EntryAt(content: string, now: int): Item { Dated(Some(StampAt(now)), content) }

  function Utf8Size(text: string): nat {
    if text == "" then 0
    else
      var c := text[0] as int;
      (if c < 0x80 then 1 else if c < 0x800 then 2 else if c < 0x10000 then 3 else 4) + Utf8Size(text[1..])
  }

  function Refused(change: Change): bool {
    match change.category
    case Plan => Utf8Size(change.content) > PLAN_MAX_BYTES
    case File => change.key == ""
    case Scratch => change.key == ""
    case Unknown => true
    case _ => false
  }

  // LPUSH then LTRIM 0 max-1.
  function Pushed(items: seq<Item>, item: Item, max: nat): seq<Item> {
    var longer := [item] + items;
    if |longer| <= max then longer else longer[..max]
  }

  // The fields a full hash gives up, in the hash's own order: any set of the
  // right size, the field just written included.
  predicate Surplus<V>(fields: map<string, V>, gone: set<string>, max: nat) {
    gone <= fields.Keys && |gone| == if |fields| > max then |fields| - max else 0
  }

  predicate GivesUp(doc: Doc, change: Change, now: int, gone: set<string>) {
    match change.category
    case File => Surplus(doc.files[change.key := EntryAt(change.content, now)], gone, FILES_MAX)
    case Scratch => Surplus(doc.scratch[change.key := change.content], gone, SCRATCH_MAX)
    case _ => gone == {}
  }

  function Wrote(doc: Doc, change: Change, now: int, gone: set<string>): Doc {
    var entry := EntryAt(change.content, now);
    match change.category
    case Plan => doc.(plan := change.content)
    case Decision => doc.(decisions := Pushed(doc.decisions, entry, DECISIONS_MAX))
    case Progress => doc.(progress := Pushed(doc.progress, entry, PROGRESS_MAX))
    case File => doc.(files := doc.files[change.key := entry] - gone)
    case Scratch => doc.(scratch := doc.scratch[change.key := change.content] - gone)
    case Unknown => doc
  }

  function ComponentCount(doc: Doc, category: Category): nat {
    match category
    case Decision => |doc.decisions|
    case Progress => |doc.progress|
    case File => |doc.files|
    case Scratch => |doc.scratch|
    case _ => 1
  }

  function Reversed(items: seq<Item>): seq<Item> {
    seq(|items|, i requires 0 <= i < |items| => items[|items| - 1 - i])
  }

  // The stored list read from its other end: last pushed, last listed.
  ghost predicate OldestFirst(listed: seq<Item>, stored: seq<Item>) {
    |listed| == |stored| && forall i :: 0 <= i < |stored| ==> listed[i] == stored[|stored| - 1 - i]
  }

  function DataOf(doc: Doc): Data {
    Data(doc.plan, Some(Reversed(doc.decisions)), Some(Reversed(doc.progress)), Some(doc.files), doc.scratch)
  }

  // ---- the windows ----

  predicate Windowed(doc: Doc) {
    && |doc.decisions| <= DECISIONS_MAX && |doc.progress| <= PROGRESS_MAX
    && |doc.files| <= FILES_MAX && |doc.scratch| <= SCRATCH_MAX
  }

  function TextOf(item: Item): int {
    if item.Dated? && item.stamp.Some? then item.stamp.value.text else 0
  }

  ghost predicate NewestFirst(items: seq<Item>, now: int) {
    && (forall i :: 0 <= i < |items| ==> TextOf(items[i]) <= now)
    && (forall i, j :: 0 <= i < j < |items| ==> TextOf(items[j]) <= TextOf(items[i]))
  }

  lemma Shrinks<V>(fields: map<string, V>, gone: set<string>)
    requires gone <= fields.Keys
    ensures |fields - gone| == |fields| - |gone|
  {
    assert (fields - gone).Keys == fields.Keys - gone;
    assert |fields.Keys - gone| == |fields.Keys| - |gone| by {
      assert gone !! (fields.Keys - gone) && fields.Keys == gone + (fields.Keys - gone);
    }
    assert |fields.Keys| == |fields| && |(fields - gone).Keys| == |fields - gone|;
  }

  // A write is refused if it is of no known category, a file or scratch field has
  // no name, or a plan has more than 10240 bytes.
  lemma RefusalsAre(change: Change)
    ensures Refused(change) <==>
      || change.category.Unknown?
      || ((change.category.File? || change.category.Scratch?) && change.key == "")
      || (change.category.Plan? && Utf8Size(change.content) > 10240)
  {
  }

  // A character has one byte for each of these bounds it reaches, and one more.
  lemma {:induction false} Utf8SizeIs(text: string, more: string, c: char)
    ensures Utf8Size("") == 0
    ensures var n := c as int;
            Utf8Size([c]) == 1 + (if n >= 0x80 then 1 else 0) + (if n >= 0x800 then 1 else 0)
                               + (if n >= 0x1_0000 then 1 else 0)
    ensures Utf8Size(text + more) == Utf8Size(text) + Utf8Size(more)
  {
    assert [c][1..] == "";
    if text == "" {
      assert text + more == more;
    } else {
      assert (text + more)[1..] == text[1..] + more;
      Utf8SizeIs(text[1..], more, c);
    }
  }

  predicate PushedOnto(before: seq<Item>, after: seq<Item>, item: Item, max: nat) {
    && |after| == (if |before| < max then |before| + 1 else max)
    && after != [] && after[0] == item && forall i :: 0 < i < |after| ==> after[i] == before[i - 1]
  }

  // A field is set, and if the hash grew beyond the maximum, it gives up as many
  // fields as it has too many, and no others.
  ghost predicate SetWithin<V>(before: map<string, V>, after: map<string, V>, key: string, value: V, max: nat) {
    var size := |before| + if key in before then 0 else 1;
    && |after| == (if size <= max then size else max)
    && (size <= max ==> key in after && forall k :: k in before ==> k in after)
    && forall k :: k in after ==> if k == key then after[k] == value else k in before && after[k] == before[k]
  }

  // What an accepted write leaves in the one place it writes to, and how many
  // components it reports there.
  lemma WroteMeans(doc: Doc, change: Change, now: int, gone: set<string>)
    requires Windowed(doc) && !Refused(change) && GivesUp(doc, change, now, gone)
    ensures var after := Wrote(doc, change, now, gone);
            var entry := Dated(Some(Stamp(now, Some(Aware(now)))), change.content);
            var count := ComponentCount(after, change.category);
            match change.category
            case Plan => after == doc.(plan := change.content) && count == 1
            case Decision =>
              && after == doc.(decisions := after.decisions) && count == |after.decisions|
              && PushedOnto(doc.decisions, after.decisions, entry, 50)
            case Progress =>
              && after == doc.(progress := after.progress) && count == |after.progress|
              && PushedOnto(doc.progress, after.progress, entry, 50)
            case File =>
              && after == doc.(files := after.files) && count == |after.files|
              && SetWithin(doc.files, after.files, change.key, entry, 100)
            case Scratch =>
              && after == doc.(scratch := after.scratch) && count == |after.scratch|
              && SetWithin(doc.scratch, after.scratch, change.key, change.content, 50)
            case Unknown => false
  {
    hide SetWithin;
    if change.category.File? {
      SetGivesUp(doc.files, change.key, EntryAt(change.content, now), gone, FILES_MAX);
    } else if change.category.Scratch? {
      SetGivesUp(doc.scratch, change.key, change.content, gone, SCRATCH_MAX);
    }
  }

  lemma SetGivesUp<V>(fields: map<string, V>, key: string, value: V, gone: set<string>, max: nat)
    requires Surplus(fields[key := value], gone, max)
    ensures SetWithin(fields, fields[key := value] - gone, key, value, max)
  {
    var longer := fields[key := value];
    Shrinks(longer, gone);
    assert longer.Keys == fields.Keys + {key};
    assert |longer| == |longer.Keys| && |fields| == |fields.Keys|;
    assert |fields| > max || gone == {} || |gone| > 0;
  }

  // No write outgrows a window, and what a list loses to a write is its oldest entry.
  lemma WritesStayWindowed(doc: Doc, change: Change, now: int, gone: set<string>)
    requires Windowed(doc) && !Refused(change) && GivesUp(doc, change, now, gone)
    ensures Windowed(Wrote(doc, change, now, gone))
  {
    if change.category.File? {
      Shrinks(doc.files[change.key := EntryAt(change.content, now)], gone);
    } else if change.category.Scratch? {
      Shrinks(doc.scratch[change.key := change.content], gone);
    }
  }

  lemma ListsStayNewestFirst(items: seq<Item>, content: string, before: int, now: int, max: nat)
    requires NewestFirst(items, before) && before <= now
    ensures NewestFirst(Pushed(items, EntryAt(content, now), max), now)
  {
    var longer := [EntryAt(content, now)] + items;
    forall i | 0 < i < |longer| ensures longer[i] == items[i - 1] {
    }
    assert NewestFirst(longer, now);
  }

  lemma PushEvictsTheOldest(items: seq<Item>, content: string, now: int, max: nat, item: Item, kept: Item)
    requires NewestFirst(items, now) && item in items
    requires item !in Pushed(items, EntryAt(content, now), max)
    requires kept in Pushed(items, EntryAt(content, now), max)
    ensures |Pushed(items, EntryAt(content, now), max)| == max && TextOf(item) <= TextOf(kept)
  {
    var longer := [EntryAt(content, now)] + items;
    var after := Pushed(items, EntryAt(content, now), max);
    var i :| 0 <= i < |items| && items[i] == item;
    var k :| 0 <= k < |after| && after[k] == kept;
    assert longer[i + 1] == item && longer[k] == kept;
    assert forall j :: 0 <= j < |after| ==> longer[j] == after[j];
    assert |after| <= i + 1;
  }

  // ---- the stored lists and hashes of one session ----

  class Contents {
    var plan: string
    var decisions: seq<Item>
    var progress: seq<Item>
    var files: map<Path, Item>
    var scratch: map<string, string>

    function Value(): Doc
      reads this
    {
      Doc(plan, decisions, progress, files, scratch)
    }

    constructor ()
      ensures Value() == Doc("", [], [], map[], map[])
    {
      plan, decisions, progress, files, scratch := "", [], [], map[], map[];
    }

    // None is the source's ValueError. An unknown status or session is refused
    // before this point (see SessionManager.Update).
    method Update(change: Change, now: int) returns (count: Option<nat>, ghost gone: set<string>)
      modifies this
      ensures count.Some? <==> !Refused(change)
      ensures count.None? ==> Value() == old(Value())
      ensures count.Some? ==>
        && GivesUp(old(Value()), change, now, gone)
        && Value() == Wrote(old(Value()), change, now, gone)
        && count.value == ComponentCount(Value(), change.category)
    {
      gone := {};
      count := None;
      match change.category {
        case Plan =>
          if Utf8Size(change.content) <= PLAN_MAX_BYTES {
            plan := change.content;
            count := Some(1);
          }
        case Decision =>
          decisions := [EntryAt(change.content, now)] + decisions;
          if |decisions| > DECISIONS_MAX { decisions := decisions[..DECISIONS_MAX]; }
          count := Some(|decisions|);
        case Progress =>
          progress := [EntryAt(change.content, now)] + progress;
          if |progress| > PROGRESS_MAX { progress := progress[..PROGRESS_MAX]; }
          count := Some(|progress|);
        case File =>
          if change.key != "" {
            files, gone := Cap(files[change.key := EntryAt(change.content, now)], FILES_MAX);
            count := Some(|files|);
          }
        case Scratch =>
          if change.key != "" {
            scratch, gone := Cap(scratch[change.key := change.content], SCRATCH_MAX);
            count := Some(|scratch|);
          }
        case Unknown =>
      }
    }

    method GetSessionData() returns (data: Data)
      ensures data == DataOf(Value())
      ensures data.plan == plan && data.files == Some(files) && data.scratch == scratch
      ensures data.decisions.Some? && OldestFirst(data.decisions.value, decisions)
      ensures data.progress.Some? && OldestFirst(data.progress.value, progress)
    {
      data := Data(plan, Some(Reversed(decisions)), Some(Reversed(progress)), Some(files), scratch);
    }
  }

  method Cap<V>(fields: map<string, V>, max: nat) returns (kept: map<string, V>, ghost gone: set<string>)
    ensures Surplus(fields, gone, max) && kept == fields - gone
  {
    if |fields| > max {
      assert |fields.Keys| == |fields|;
      var first := FirstFields(fields.Keys, |fields| - max);
      return fields - first, first;
    }
    return fields, {};
  }

  // The first n fields HKEYS lists, in whatever order it lists them.
  method FirstFields(fields: set<string>, n: nat) returns (first: set<string>)
    requires n <= |fields|
    ensures first <= fields && |first| == n
  {
    first := {};
    while |first| < n
      invariant first <= fields && |first| <= n
    {
      assert |fields - first| > 0 by {
        assert fields == first + (fields - first);
      }
      var f :| f in fields - first;
      first := first + {f};
    }
  }
}
