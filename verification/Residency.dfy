/** bridge/app/residency.py: what a delta restore keeps, and the mark a cursor carries. */
module Residency {
  import opened Wrappers

  // What fromisoformat makes of a stamp; naive and aware times do not compare.
  datatype Clock = Naive(t: int) | Aware(t: int)

  // A non-empty timestamp string: its place in string order, and its parse.
  datatype Stamp = Stamp(text: int, parsed: Option<Clock>)

  // A list entry or a file record. Odd stands for an element that is not a dict.
  datatype Item = Odd(raw: string) | Dated(stamp: Option<Stamp>, content: string)

  type Path = string

  // get_session_data's result; None stands for a container of the wrong shape.
  datatype Data = Data(
    plan: string,
    decisions: Option<seq<Item>>,
    progress: Option<seq<Item>>,
    files: Option<map<Path, Item>>,
    scratch: map<string, string>)

  // A decoded cursor; a blank high-water mark reads as None.
  datatype Cursor = Cursor(sid: string, epoch: string, hw: Option<Stamp>, planSha: string)

  datatype Omitted = Omitted(decisions: nat, progress: nat, files: nat, plan: bool)

  // _keep_entry: an entry is dropped only if it is provably older than the mark.
  predicate KeepEntry(stamp: Option<Stamp>, hw: Stamp) {
    match (stamp, hw.parsed)
    case (Some(Stamp(_, Some(Naive(a)))), Some(Naive(b))) => a >= b
    case (Some(Stamp(_, Some(Aware(a)))), Some(Aware(b))) => a >= b
    case _ => true
  }

  predicate KeepItem(item: Item, hw: Stamp) {
    item.Odd? || KeepEntry(item.stamp, hw)
  }

  // Both have a parsed time of the same kind, and the item's is the earlier one.
  predicate Older(item: Item, hw: Stamp) {
    && item.Dated? && item.stamp.Some? && item.stamp.value.parsed.Some? && hw.parsed.Some?
    && var a, b := item.stamp.value.parsed.value, hw.parsed.value;
       (a.Naive? <==> b.Naive?) && a.t < b.t
  }

  lemma KeptUnlessOlder(item: Item, hw: Stamp)
    ensures KeepItem(item, hw) <==> !Older(item, hw)
  {
  }

  // ---- the high-water mark ----

  predicate HasStamp(item: Item, s: Stamp) {
    item.Dated? && item.stamp == Some(s)
  }

  ghost predicate Stamps(data: Data, s: Stamp) {
    || (data.decisions.Some? && exists item :: item in data.decisions.value && HasStamp(item, s))
    || (data.progress.Some? && exists item :: item in data.progress.value && HasStamp(item, s))
    || (data.files.Some? && exists p :: p in data.files.value && HasStamp(data.files.value[p], s))
  }

  // The newest stamp anywhere, in string order; None when nothing is stamped.
  ghost predicate IsHighWater(data: Data, hw: Option<Stamp>) {
    match hw
    case None => forall s :: !Stamps(data, s)
    case Some(h) => Stamps(data, h) && forall s :: Stamps(data, s) ==> s.text <= h.text
  }

  ghost predicate NewestIn(items: seq<Item>, hw: Option<Stamp>) {
    match hw
    case None => forall item, s :: item in items ==> !HasStamp(item, s)
    case Some(h) =>
      && (exists item :: item in items && HasStamp(item, h))
      && (forall item, s :: item in items && HasStamp(item, s) ==> s.text <= h.text)
  }

  function Later(hw: Option<Stamp>, item: Item): Option<Stamp> {
    if item.Dated? && item.stamp.Some? && (hw.None? || hw.value.text < item.stamp.value.text)
    then item.stamp else hw
  }

  lemma OneMore(items: seq<Item>, item: Item, hw: Option<Stamp>)
    requires NewestIn(items, hw)
    ensures NewestIn(items + [item], Later(hw, item))
  {
    var all, now := items + [item], Later(hw, item);
    forall it, s | it in all && HasStamp(it, s) ensures now.Some? && s.text <= now.value.text {
      assert it in items || it == item;
    }
    if now.Some? {
      if now == hw {
        var it :| it in items && HasStamp(it, hw.value);
        assert it in all;
      } else {
        assert item in all && HasStamp(item, now.value);
      }
    }
  }

  method Newest(items: seq<Item>) returns (hw: Option<Stamp>)
    ensures NewestIn(items, hw)
  {
    hw := None;
    for i := 0 to |items|
      invariant NewestIn(items[..i], hw)
    {
      OneMore(items[..i], items[i], hw);
      assert items[..i + 1] == items[..i] + [items[i]];
      if items[i].Dated? && items[i].stamp.Some? {
        var s := items[i].stamp.value;
        if hw.None? || hw.value.text < s.text {
          hw := Some(s);
        }
      }
    }
    assert items[..|items|] == items;
  }

  // A dict's values, in some order.
  method ValuesOf(files: map<Path, Item>) returns (items: seq<Item>)
    ensures forall item :: item in items <==> exists p :: p in files && files[p] == item
  {
    items := [];
    var left := files.Keys;
    while left != {}
      invariant left <= files.Keys
      invariant forall item :: item in items <==> exists p :: p in files && p !in left && files[p] == item
      decreases |left|
    {
      var p :| p in left;
      items := items + [files[p]];
      left := left - {p};
    }
  }

  method HighWaterOf(data: Data) returns (hw: Option<Stamp>)
    ensures IsHighWater(data, hw)
  {
    var items := if data.decisions.Some? then data.decisions.value else [];
    items := items + if data.progress.Some? then data.progress.value else [];
    if data.files.Some? {
      var values := ValuesOf(data.files.value);
      items := items + values;
    }
    assert forall s :: Stamps(data, s) <==> exists item :: item in items && HasStamp(item, s);
    hw := Newest(items);
  }

  // ---- filter_since ----

  function KeptItems(items: seq<Item>, hw: Stamp): seq<Item> {
    if items == [] then []
    else
      var n := |items| - 1;
      KeptItems(items[..n], hw) + if KeepItem(items[n], hw) then [items[n]] else []
  }

  function KeptFiles(files: map<Path, Item>, hw: Stamp): map<Path, Item> {
    map p | p in files && KeepItem(files[p], hw) :: files[p]
  }

  // A delta is served only against a mark of this session, of the current
  // epoch, and only when every container has the shape the filter understands.
  predicate Filterable(data: Data, cursor: Option<Cursor>, sid: string, epoch: Option<string>) {
    && cursor.Some? && cursor.value.sid == sid
    && epoch.Some? && cursor.value.epoch == epoch.value
    && cursor.value.hw.Some?
    && data.decisions.Some? && data.progress.Some? && data.files.Some?
  }

  function Delta(data: Data, cursor: Cursor, sha: string -> string): Data
    requires cursor.hw.Some? && data.decisions.Some? && data.progress.Some? && data.files.Some?
  {
    var hw := cursor.hw.value;
    Data(
      if sha(data.plan) == cursor.planSha then "" else data.plan,
      Some(KeptItems(data.decisions.value, hw)),
      Some(KeptItems(data.progress.value, hw)),
      Some(KeptFiles(data.files.value, hw)),
      data.scratch)
  }

  lemma {:induction false} KeptItemsAre(items: seq<Item>, hw: Stamp)
    ensures forall item :: item in KeptItems(items, hw) <==> item in items && KeepItem(item, hw)
    ensures |KeptItems(items, hw)| <= |items|
  {
    if items != [] {
      KeptItemsAre(items[..|items| - 1], hw);
      assert items == items[..|items| - 1] + [items[|items| - 1]];
    }
  }

  // The places in a list of what was kept of it, lowest first: those of the items
  // not older than the mark.
  predicate Places(items: seq<Item>, kept: seq<Item>, hw: Stamp, at: seq<nat>) {
    && |at| == |kept| && (forall i, j :: 0 <= i < j < |at| ==> at[i] < at[j])
    && (forall i :: 0 <= i < |at| ==> at[i] < |items| && kept[i] == items[at[i]])
    && (forall k: nat :: k < |items| ==> (k in at <==> !Older(items[k], hw)))
  }

  // In their order, each as often as it stood there.
  ghost predicate KeptInOrder(items: seq<Item>, kept: seq<Item>, hw: Stamp) {
    exists at :: Places(items, kept, hw, at)
  }

  lemma {:induction false} KeepsInOrder(items: seq<Item>, hw: Stamp) returns (at: seq<nat>)
    ensures Places(items, KeptItems(items, hw), hw, at)
  {
    at := [];
    if items != [] {
      var n: nat := |items| - 1;
      var before := KeepsInOrder(items[..n], hw);
      KeptUnlessOlder(items[n], hw);
      at := before + if KeepItem(items[n], hw) then [n] else [];
      assert forall k: nat :: k < n ==> items[..n][k] == items[k];
      assert forall k :: k in at <==> k in before || (k == n && KeepItem(items[n], hw));
    }
  }

  // What a delta from this cursor shows of the data: of the lists and files all
  // that is not older than the mark, the plan unless its digest is the cursor's,
  // and the scratchpad in full.
  ghost predicate IsDelta(data: Data, rendered: Data, cursor: Cursor, sha: string -> string) {
    && cursor.hw.Some? && data.decisions.Some? && data.progress.Some? && data.files.Some?
    && rendered.decisions.Some? && rendered.progress.Some? && rendered.files.Some?
    && KeptInOrder(data.decisions.value, rendered.decisions.value, cursor.hw.value)
    && KeptInOrder(data.progress.value, rendered.progress.value, cursor.hw.value)
    && (forall p :: p in rendered.files.value <==>
      p in data.files.value && !Older(data.files.value[p], cursor.hw.value))
    && (forall p :: p in rendered.files.value ==> rendered.files.value[p] == data.files.value[p])
    && rendered.plan == (if sha(data.plan) == cursor.planSha then "" else data.plan)
    && rendered.scratch == data.scratch
  }

  lemma DeltaIs(data: Data, cursor: Cursor, sha: string -> string)
    requires cursor.hw.Some? && data.decisions.Some? && data.progress.Some? && data.files.Some?
    ensures IsDelta(data, Delta(data, cursor, sha), cursor, sha)
  {
    var hw := cursor.hw.value;
    var decisions := KeepsInOrder(data.decisions.value, hw);
    var progress := KeepsInOrder(data.progress.value, hw);
    forall p | p in data.files.value ensures KeepItem(data.files.value[p], hw) <==> !Older(data.files.value[p], hw) {
      KeptUnlessOlder(data.files.value[p], hw);
    }
    hide Places, KeptItems, KeepItem, Older;
  }

  method KeepSince(items: seq<Item>, hw: Stamp) returns (kept: seq<Item>)
    ensures kept == KeptItems(items, hw)
  {
    kept := [];
    for i := 0 to |items|
      invariant kept == KeptItems(items[..i], hw)
    {
      assert items[..i + 1][..i] == items[..i];
      if KeepItem(items[i], hw) {
        kept := kept + [items[i]];
      }
    }
    assert items[..|items|] == items;
  }

  method KeepFilesSince(files: map<Path, Item>, hw: Stamp) returns (kept: map<Path, Item>)
    ensures kept == KeptFiles(files, hw)
  {
    kept := map[];
    var left := files.Keys;
    while left != {}
      invariant left <= files.Keys
      invariant kept == map p | p in files && p !in left && KeepItem(files[p], hw) :: files[p]
      decreases |left|
    {
      var p :| p in left;
      if KeepItem(files[p], hw) {
        kept := kept[p := files[p]];
      }
      left := left - {p};
    }
  }

  method FilterSince(data: Data, cursor: Option<Cursor>, sid: string, epoch: Option<string>, sha: string -> string)
    returns (rendered: Data, omitted: Option<Omitted>)
    ensures omitted.Some? <==>
      && cursor.Some? && cursor.value.sid == sid && epoch == Some(cursor.value.epoch) && cursor.value.hw.Some?
      && data.decisions.Some? && data.progress.Some? && data.files.Some?
    ensures omitted.Some? <==> Filterable(data, cursor, sid, epoch)
    ensures omitted.None? ==> rendered == data
    ensures omitted.Some? ==>
      && IsDelta(data, rendered, cursor.value, sha) && rendered == Delta(data, cursor.value, sha)
      && omitted.value.decisions + |rendered.decisions.value| == |data.decisions.value|
      && omitted.value.progress + |rendered.progress.value| == |data.progress.value|
      && omitted.value.files + |rendered.files.value| == |data.files.value|
      && (omitted.value.plan <==> rendered.plan != data.plan)
  {
    if !Filterable(data, cursor, sid, epoch) {
      return data, None;
    }
    var hw := cursor.value.hw.value;
    var decisions := KeepSince(data.decisions.value, hw);
    var progress := KeepSince(data.progress.value, hw);
    var files := KeepFilesSince(data.files.value, hw);
    KeptItemsAre(data.decisions.value, hw);
    KeptItemsAre(data.progress.value, hw);
    KeptFilesFewer(data.files.value, hw);
    DeltaIs(data, cursor.value, sha);
    hide IsDelta, KeptItems, KeepItem, KeptInOrder;
    var samePlan := sha(data.plan) == cursor.value.planSha;
    rendered := Data(if samePlan then "" else data.plan, Some(decisions), Some(progress), Some(files), data.scratch);
    omitted := Some(Omitted(
      |data.decisions.value| - |decisions|, |data.progress.value| - |progress|,
      |data.files.value| - |files|, samePlan && data.plan != ""));
  }

  lemma KeptFilesFewer(files: map<Path, Item>, hw: Stamp)
    ensures |KeptFiles(files, hw)| <= |files|
  {
    var kept := KeptFiles(files, hw);
    SubsetSize(kept.Keys, files.Keys);
  }

  lemma {:induction false} SubsetSize<T>(a: set<T>, b: set<T>)
    requires a <= b
    ensures |a| <= |b|
  {
    if a != {} {
      var x :| x in a;
      SubsetSize(a - {x}, b - {x});
    }
  }
}
