/**
 * `BigCampaign` (classes/big_campaign.py): a campaign made of fragments, each
 * analysed on its own, and the gathering step that merges the fragments' alignment
 * tables into one. Fragment i's node ids are moved past the nodes of fragments
 * 0..i-1 (`start_id`), and its sentence indexes past their sentences
 * (`start_sent_id`), so that the merged table refers to one numbering for the
 * whole campaign.
 */
module Aggregation {
  import opened Optional
  import opened Text
  import opened Segmenter

  /** One entry of an alignment list: `min_id`, `order_ids`, `sent_indexes`,
      `combine_ids`, and the entry's other keys, which the gathering copies. */
  datatype AlignmentRecord = AlignmentRecord(
    minId: int,
    orderIds: seq<int>,
    sentIndexes: seq<int>,
    combineIds: seq<int>,
    others: map<string, string>)

  /** A node id's list of alignment entries. */
  type Alignment = map<int, seq<AlignmentRecord>>

  /** What the gathering reads of one fragment's analysis (a `Campaign`). */
  datatype Fragment = Fragment(
    id: int,
    text: string,
    nodeCount: nat,                // len(campaign.graph_nodes)
    sentenceCount: nat,            // len(campaign.sentences)
    mapper: Alignment,
    techAlignment: Alignment,
    phrases: Option<seq<string>>)  // None: the campaign has no `phrases` attribute

  /** The two tables the campaign gathers; only `mapper` entries have their
      `combine_ids` moved. */
  datatype Table = Mapper | TechAlignment

  function TableOf(f: Fragment, t: Table): Alignment {
    match t
    case Mapper => f.mapper
    case TechAlignment => f.techAlignment
  }

  /** What the offsets count: graph nodes (`start_id`) or sentences (`start_sent_id`). */
  datatype Counter = Nodes | Sentences

  function Size(f: Fragment, c: Counter): nat {
    match c
    case Nodes => f.nodeCount
    case Sentences => f.sentenceCount
  }

  /** The offset after `frags`: the sum of their sizes. `Offset(frags[..i], c)` is
      the value of `start_id` (or `start_sent_id`) when fragment i is gathered. */
  function Offset(frags: seq<Fragment>, c: Counter): nat {
    if frags == [] then 0
    else Offset(frags[..|frags| - 1], c) + Size(frags[|frags| - 1], c)
  }

  /** A combine id packs a sentence index with this factor. */
  const CombineScale: int := 1000

  // ---- One entry ----

  /** The copy loop reads `sent_indexes[i]` for every index of `order_ids`; with a
      shorter `sent_indexes` the source raises `IndexError`. */
  predicate Shiftable(r: AlignmentRecord) {
    |r.sentIndexes| >= |r.orderIds|
  }

  /** The entry as the gathering copies it: `min_id` and every order id moved by
      `nodeBase`; the first `len(order_ids)` sentence indexes moved by `sentBase`
      and the rest reset to 0; for the mapper, every combine id moved by
      `sentBase * 1000`; everything else kept. */
  function ShiftRecord(r: AlignmentRecord, t: Table, nodeBase: int, sentBase: int): (out: AlignmentRecord)
    ensures |out.orderIds| == |r.orderIds| && |out.sentIndexes| == |r.sentIndexes| && |out.combineIds| == |r.combineIds|
    ensures out.others == r.others
    ensures t == TechAlignment ==> out.combineIds == r.combineIds
  {
    r.(minId := r.minId + nodeBase,
       orderIds := seq(|r.orderIds|, i requires 0 <= i < |r.orderIds| => r.orderIds[i] + nodeBase),
       sentIndexes := seq(|r.sentIndexes|, i requires 0 <= i < |r.sentIndexes| =>
                        if i < |r.orderIds| then r.sentIndexes[i] + sentBase else 0),
       combineIds := if t == Mapper then seq(|r.combineIds|, i requires 0 <= i < |r.combineIds| => r.combineIds[i] + sentBase * CombineScale)
                     else r.combineIds)
  }

  /** The sentence indexes past the end of `order_ids` are all 0. */
  predicate NoStraySentences(r: AlignmentRecord) {
    forall i | |r.orderIds| <= i < |r.sentIndexes| :: r.sentIndexes[i] == 0
  }

  /** Two gatherings in a row are one gathering by the summed offsets. */
  lemma ShiftCompose(r: AlignmentRecord, t: Table, a: int, b: int, c: int, d: int)
    ensures ShiftRecord(ShiftRecord(r, t, a, b), t, c, d) == ShiftRecord(r, t, a + c, b + d)
  {
    var once := ShiftRecord(r, t, a, b);
    var twice := ShiftRecord(once, t, c, d);
    var direct := ShiftRecord(r, t, a + c, b + d);
    assert twice.orderIds == direct.orderIds;
    assert twice.sentIndexes == direct.sentIndexes;
    if t == Mapper {
      assert twice.combineIds == direct.combineIds;
    }
  }

  /** Copying with zero offsets gives back the entry exactly when no sentence index
      lies past the end of `order_ids`: the copy loop resets those to 0. */
  lemma ShiftZero(r: AlignmentRecord, t: Table)
    ensures ShiftRecord(r, t, 0, 0) == r <==> NoStraySentences(r)
  {
    var out := ShiftRecord(r, t, 0, 0);
    assert out.orderIds == r.orderIds;
    if t == Mapper {
      assert out.combineIds == r.combineIds;
    }
    if NoStraySentences(r) {
      assert out.sentIndexes == r.sentIndexes;
    } else {
      var i :| |r.orderIds| <= i < |r.sentIndexes| && r.sentIndexes[i] != 0;
      assert out.sentIndexes[i] != r.sentIndexes[i];
    }
  }

  /** Moving an entry and moving it back restores it exactly when it has no stray
      sentence index. */
  lemma ShiftRoundTrip(r: AlignmentRecord, t: Table, nodeBase: int, sentBase: int)
    ensures ShiftRecord(ShiftRecord(r, t, nodeBase, sentBase), t, -nodeBase, -sentBase) == r <==> NoStraySentences(r)
  {
    ShiftCompose(r, t, nodeBase, sentBase, -nodeBase, -sentBase);
    ShiftZero(r, t);
  }

  /** In a mapper entry, the sentence part of every combine id (`id // 1000`) moves
      by the sentence offset and the part below 1000 stays. */
  lemma CombineIdsFollowSentences(r: AlignmentRecord, nodeBase: int, sentBase: int, i: int)
    requires 0 <= i < |r.combineIds|
    ensures ShiftRecord(r, Mapper, nodeBase, sentBase).combineIds[i] / CombineScale == r.combineIds[i] / CombineScale + sentBase
    ensures ShiftRecord(r, Mapper, nodeBase, sentBase).combineIds[i] % CombineScale == r.combineIds[i] % CombineScale
  {
    var c := r.combineIds[i];
    var q := c / CombineScale;
    var m := c % CombineScale;
    assert c == q * CombineScale + m;
    assert c + sentBase * CombineScale == (q + sentBase) * CombineScale + m;
  }

  /** The copy loop of lines 117-131, over one entry. */
  method TranslateRecord(r: AlignmentRecord, t: Table, startId: int, startSentId: int) returns (out: AlignmentRecord)
    requires Shiftable(r)
    ensures out == ShiftRecord(r, t, startId, startSentId)
  {
    var orderIds := seq(|r.orderIds|, _ => 0);
    var sentIndexes := seq(|r.sentIndexes|, _ => 0);
    for i := 0 to |r.orderIds|
      invariant |orderIds| == |r.orderIds| && |sentIndexes| == |r.sentIndexes|
      invariant forall j | 0 <= j < |orderIds| :: orderIds[j] == if j < i then r.orderIds[j] + startId else 0
      invariant forall j | 0 <= j < |sentIndexes| :: sentIndexes[j] == if j < i then r.sentIndexes[j] + startSentId else 0
    {
      orderIds := orderIds[i := r.orderIds[i] + startId];
      sentIndexes := sentIndexes[i := r.sentIndexes[i] + startSentId];
    }
    var combineIds := r.combineIds;
    if t == Mapper {
      combineIds := seq(|r.combineIds|, _ => 0);
      for i := 0 to |r.combineIds|
        invariant |combineIds| == |r.combineIds|
        invariant forall j | 0 <= j < |combineIds| :: combineIds[j] == if j < i then r.combineIds[j] + startSentId * CombineScale else 0
      {
        combineIds := combineIds[i := r.combineIds[i] + startSentId * CombineScale];
      }
    }
    out := r.(minId := r.minId + startId, orderIds := orderIds, sentIndexes := sentIndexes, combineIds := combineIds);
  }

  // ---- Tables ----

  predicate TableShiftable(a: Alignment) {
    forall k, j | k in a && 0 <= j < |a[k]| :: Shiftable(a[k][j])
  }

  predicate AllShiftable(frags: seq<Fragment>, t: Table) {
    forall i | 0 <= i < |frags| :: TableShiftable(TableOf(frags[i], t))
  }

  /** The keys of a fragment's table are node ids of that fragment. */
  predicate KeysInRange(frags: seq<Fragment>, t: Table) {
    forall i, k | 0 <= i < |frags| && k in TableOf(frags[i], t) :: 0 <= k < frags[i].nodeCount
  }

  function ShiftRecords(v: seq<AlignmentRecord>, t: Table, nodeBase: int, sentBase: int): (out: seq<AlignmentRecord>)
    ensures |out| == |v|
  {
    seq(|v|, j requires 0 <= j < |v| => ShiftRecord(v[j], t, nodeBase, sentBase))
  }

  /** The list a table holds under `key`, if any. */
  function Find(m: Alignment, key: int): Option<seq<AlignmentRecord>> {
    if key in m then Some(m[key]) else None
  }

  /** What the gathered table holds under `key`: the list of the last fragment
      whose moved keys include `key`, moved by that fragment's offsets. A later
      fragment replaces an earlier one's list (`self.mapper[new_k] = []`). */
  function Merged(frags: seq<Fragment>, t: Table, key: int): Option<seq<AlignmentRecord>> {
    if frags == [] then None
    else
      var init := frags[..|frags| - 1];
      var last := TableOf(frags[|frags| - 1], t);
      var base := Offset(init, Nodes);
      if key - base in last then Some(ShiftRecords(last[key - base], t, base, Offset(init, Sentences)))
      else Merged(init, t, key)
  }

  /** The gathering loops of `mapper_gathering` and `tech_mapper_gathering`: the
      fragments are gathered in order while the offsets grow by their sizes. */
  method GatherTable(frags: seq<Fragment>, t: Table) returns (m: Alignment)
    requires AllShiftable(frags, t)
    ensures forall key :: Find(m, key) == Merged(frags, t, key)
  {
    m := map[];
    var startId := 0;
    var startSentId := 0;
    for i := 0 to |frags|
      invariant startId == Offset(frags[..i], Nodes) && startSentId == Offset(frags[..i], Sentences)
      invariant forall key :: Find(m, key) == Merged(frags[..i], t, key)
    {
      assert frags[..i + 1][..i] == frags[..i];
      m := GatherFragment(m, TableOf(frags[i], t), t, startId, startSentId);
      startId := startId + frags[i].nodeCount;
      startSentId := startSentId + frags[i].sentenceCount;
    }
    assert frags[..|frags|] == frags;
  }

  /** The body of the gathering loop for one fragment: for each key, the moved key's
      list is replaced by the fragment's moved entries; other keys keep their lists. */
  method GatherFragment(m0: Alignment, table: Alignment, t: Table, startId: int, startSentId: int) returns (m: Alignment)
    requires TableShiftable(table)
    ensures forall key :: Find(m, key) ==
              if key - startId in table then Some(ShiftRecords(table[key - startId], t, startId, startSentId)) else Find(m0, key)
  {
    m := m0;
    ghost var done: set<int> := {};
    var keys := table.Keys;
    while keys != {}
      invariant keys !! done && keys + done == table.Keys
      invariant forall key :: Find(m, key) ==
                  if key - startId in done then Some(ShiftRecords(table[key - startId], t, startId, startSentId)) else Find(m0, key)
      decreases |keys|
    {
      var k := PickKey(keys);
      var newK := startId + k;
      ghost var prev := m;
      m := PutMoved(m, newK, table[k], t, startId, startSentId);
      forall key ensures Find(m, key) ==
          if key - startId in done + {k} then Some(ShiftRecords(table[key - startId], t, startId, startSentId)) else Find(m0, key)
      {
        if key != newK {
          assert Find(m, key) == Find(prev, key);
        }
      }
      keys := keys - {k};
      done := done + {k};
    }
  }

  /** Some element of a set that is not empty; which one is left open, as the
      order of a dictionary's keys is not part of the model. */
  method PickKey<T>(s: set<T>) returns (x: T)
    requires s != {}
    ensures x in s
  {
    NonEmptySet(s);
    x :| x in s;
  }

  /** A set that is not empty has an element to pick. */
  lemma NonEmptySet<T>(s: set<T>)
    requires s != {}
    ensures exists x :: x in s
  {
    if forall x :: x !in s {
      assert false;
    }
  }

  /** `self.mapper[new_k] = []` followed by one `append` per entry of the list. */
  method PutMoved(m0: Alignment, newK: int, v: seq<AlignmentRecord>, t: Table, startId: int, startSentId: int) returns (m: Alignment)
    requires forall j | 0 <= j < |v| :: Shiftable(v[j])
    ensures m == m0[newK := ShiftRecords(v, t, startId, startSentId)]
  {
    m := m0[newK := []];
    for j := 0 to |v|
      invariant m == m0[newK := ShiftRecords(v[..j], t, startId, startSentId)]
    {
      var entry := TranslateRecord(v[j], t, startId, startSentId);
      assert ShiftRecords(v[..j + 1], t, startId, startSentId) == ShiftRecords(v[..j], t, startId, startSentId) + [entry];
      m := m[newK := m[newK] + [entry]];
    }
    assert v[..|v|] == v;
  }

  // ---- Where the merged ids come from ----

  lemma {:induction false} OffsetsOrdered(frags: seq<Fragment>, c: Counter, i: int, j: int)
    requires 0 <= i < j <= |frags|
    ensures Offset(frags[..i], c) + Size(frags[i], c) <= Offset(frags[..j], c)
    decreases j
  {
    assert frags[..j][..j - 1] == frags[..j - 1];
    if i < j - 1 {
      OffsetsOrdered(frags, c, i, j - 1);
    }
  }

  /** The fragment a merged id belongs to: fragment i owns the ids from
      `Offset(frags[..i])` up to, not including, `Offset(frags[..i + 1])`, and
      these ranges cover `[0, Offset(frags))`. */
  function Owner(frags: seq<Fragment>, c: Counter, id: int): (i: nat)
    requires 0 <= id < Offset(frags, c)
    ensures i < |frags| && Offset(frags[..i], c) <= id < Offset(frags[..i], c) + Size(frags[i], c)
  {
    var n := |frags| - 1;
    assert frags[..n + 1] == frags;
    if id >= Offset(frags[..n], c) then n
    else
      var i := Owner(frags[..n], c, id);
      PrefixOfInit(frags, i);
      i
  }

  /** The ranges are disjoint, so the owner is the only fragment whose range
      holds the id. */
  lemma OwnerUnique(frags: seq<Fragment>, c: Counter, id: int, j: int)
    requires 0 <= j < |frags| && Offset(frags[..j], c) <= id < Offset(frags[..j], c) + Size(frags[j], c)
    ensures 0 <= id < Offset(frags, c)
    ensures Owner(frags, c, id) == j
  {
    OffsetsOrdered(frags, c, j, |frags|);
    assert frags[..|frags|] == frags;
    var i := Owner(frags, c, id);
    if i < j {
      OffsetsOrdered(frags, c, i, j);
    } else if j < i {
      OffsetsOrdered(frags, c, j, i);
    }
  }

  /** `key` is some fragment's key moved by that fragment's node offset. */
  ghost predicate Origin(frags: seq<Fragment>, t: Table, key: int) {
    exists i, k | 0 <= i < |frags| && k in TableOf(frags[i], t) :: key == Offset(frags[..i], Nodes) + k
  }

  lemma PrefixOfInit(frags: seq<Fragment>, i: int)
    requires 0 <= i < |frags|
    ensures frags[..|frags| - 1][..i] == frags[..i]
  {
  }

  lemma OriginLast(frags: seq<Fragment>, t: Table, key: int)
    requires frags != []
    ensures var n := |frags| - 1;
            Origin(frags, t, key) <==> Origin(frags[..n], t, key) || key - Offset(frags[..n], Nodes) in TableOf(frags[n], t)
  {
    var n := |frags| - 1;
    var init := frags[..n];
    var base := Offset(init, Nodes);
    if Origin(frags, t, key) {
      var i, k :| 0 <= i < |frags| && k in TableOf(frags[i], t) && key == Offset(frags[..i], Nodes) + k;
      if i < n {
        PrefixOfInit(frags, i);
        assert k in TableOf(init[i], t) && key == Offset(init[..i], Nodes) + k;
      }
    }
    if Origin(init, t, key) {
      var i, k :| 0 <= i < |init| && k in TableOf(init[i], t) && key == Offset(init[..i], Nodes) + k;
      PrefixOfInit(frags, i);
      assert k in TableOf(frags[i], t) && key == Offset(frags[..i], Nodes) + k;
    }
    if key - base in TableOf(frags[n], t) {
      assert key == Offset(frags[..n], Nodes) + (key - base);
    }
  }

  /** The merged keys are exactly the fragments' keys, each moved by its
      fragment's node offset. */
  lemma {:induction false} MergedKeys(frags: seq<Fragment>, t: Table, key: int)
    ensures Merged(frags, t, key).Some? <==> Origin(frags, t, key)
    decreases |frags|
  {
    if frags != [] {
      MergedKeys(frags[..|frags| - 1], t, key);
      OriginLast(frags, t, key);
    }
  }

  lemma KeysInRangeInit(frags: seq<Fragment>, t: Table)
    requires KeysInRange(frags, t) && frags != []
    ensures KeysInRange(frags[..|frags| - 1], t)
  {
    var init := frags[..|frags| - 1];
    forall i, k | 0 <= i < |init| && k in TableOf(init[i], t) ensures 0 <= k < init[i].nodeCount {
      assert init[i] == frags[i];
    }
  }

  /** With each fragment's keys among its own node ids, nothing is overwritten:
      fragment i's list under key k is found, moved, under `Offset(frags[..i]) + k`. */
  lemma {:induction false} MergedLookup(frags: seq<Fragment>, t: Table, i: int, k: int)
    requires KeysInRange(frags, t)
    requires 0 <= i < |frags| && k in TableOf(frags[i], t)
    ensures Merged(frags, t, Offset(frags[..i], Nodes) + k) ==
            Some(ShiftRecords(TableOf(frags[i], t)[k], t, Offset(frags[..i], Nodes), Offset(frags[..i], Sentences)))
    decreases |frags|
  {
    var n := |frags| - 1;
    if i < n {
      var init := frags[..n];
      KeysInRangeInit(frags, t);
      PrefixOfInit(frags, i);
      assert init[i] == frags[i];
      MergedLookup(init, t, i, k);
      OffsetsOrdered(frags, Nodes, i, n);
    }
  }

  /** With each fragment's keys among its own node ids, the merged keys are node
      ids of the whole campaign. */
  lemma MergedRange(frags: seq<Fragment>, t: Table, key: int)
    requires KeysInRange(frags, t)
    requires Merged(frags, t, key).Some?
    ensures 0 <= key < Offset(frags, Nodes)
  {
    MergedKeys(frags, t, key);
    var i, k :| 0 <= i < |frags| && k in TableOf(frags[i], t) && key == Offset(frags[..i], Nodes) + k;
    OffsetsOrdered(frags, Nodes, i, |frags|);
    assert frags[..|frags|] == frags;
  }

  /** An order id of a gathered entry that was one of its own fragment's node ids
      lands in that fragment's range of the campaign's node ids and nowhere else:
      the id names a node of the whole campaign, fragment i is its owner, and
      subtracting fragment i's offset gives back the local id. */
  lemma MovedOrderIdOwned(frags: seq<Fragment>, t: Table, i: int, k: int, j: int, p: int)
    requires KeysInRange(frags, t)
    requires 0 <= i < |frags| && k in TableOf(frags[i], t) && 0 <= j < |TableOf(frags[i], t)[k]|
    requires 0 <= p < |TableOf(frags[i], t)[k][j].orderIds|
    requires 0 <= TableOf(frags[i], t)[k][j].orderIds[p] < frags[i].nodeCount
    ensures var merged := Merged(frags, t, Offset(frags[..i], Nodes) + k);
            && merged.Some? && j < |merged.value| && p < |merged.value[j].orderIds|
            && var id := merged.value[j].orderIds[p];
            && 0 <= id < Offset(frags, Nodes)
            && Owner(frags, Nodes, id) == i
            && id - Offset(frags[..i], Nodes) == TableOf(frags[i], t)[k][j].orderIds[p]
  {
    MergedLookup(frags, t, i, k);
    var r := TableOf(frags[i], t)[k][j];
    var id := r.orderIds[p] + Offset(frags[..i], Nodes);
    assert Merged(frags, t, Offset(frags[..i], Nodes) + k).value[j].orderIds[p] == id;
    OwnerUnique(frags, Nodes, id, i);
  }

  /** The same for a sentence index of a gathered entry that was one of its own
      fragment's sentences: it lands in that fragment's range of the campaign's
      sentences, fragment i owns it, and the local index comes back. */
  lemma MovedSentenceIndexOwned(frags: seq<Fragment>, t: Table, i: int, k: int, j: int, p: int)
    requires KeysInRange(frags, t)
    requires 0 <= i < |frags| && k in TableOf(frags[i], t) && 0 <= j < |TableOf(frags[i], t)[k]|
    requires 0 <= p < |TableOf(frags[i], t)[k][j].orderIds| && p < |TableOf(frags[i], t)[k][j].sentIndexes|
    requires 0 <= TableOf(frags[i], t)[k][j].sentIndexes[p] < frags[i].sentenceCount
    ensures var merged := Merged(frags, t, Offset(frags[..i], Nodes) + k);
            && merged.Some? && j < |merged.value| && p < |merged.value[j].sentIndexes|
            && var id := merged.value[j].sentIndexes[p];
            && 0 <= id < Offset(frags, Sentences)
            && Owner(frags, Sentences, id) == i
            && id - Offset(frags[..i], Sentences) == TableOf(frags[i], t)[k][j].sentIndexes[p]
  {
    MergedLookup(frags, t, i, k);
    var r := TableOf(frags[i], t)[k][j];
    var id := r.sentIndexes[p] + Offset(frags[..i], Sentences);
    assert Merged(frags, t, Offset(frags[..i], Nodes) + k).value[j].sentIndexes[p] == id;
    OwnerUnique(frags, Sentences, id, i);
  }

  /** A key outside its fragment's node range can clash with a later fragment's
      key; the later list then replaces the earlier one, which is lost. */
  lemma KeyClash(a: AlignmentRecord, b: AlignmentRecord)
    ensures var first := Fragment(0, "", 0, 0, map[0 := [a]], map[], None);
            var second := Fragment(1, "", 1, 0, map[0 := [b]], map[], None);
            Merged([first, second], Mapper, 0) == Some([ShiftRecord(b, Mapper, 0, 0)])
  {
    var first := Fragment(0, "", 0, 0, map[0 := [a]], map[], None);
    var second := Fragment(1, "", 1, 0, map[0 := [b]], map[], None);
    assert [first, second][..1] == [first];
    assert [first][..0] == [];
    assert Offset([first], Nodes) == Offset([], Nodes) + Size(first, Nodes) == 0;
    assert Offset([first], Sentences) == Offset([], Sentences) + Size(first, Sentences) == 0;
    assert ShiftRecords([b], Mapper, 0, 0) == [ShiftRecord(b, Mapper, 0, 0)];
  }

  /** After a fragment of 3 nodes and 2 sentences, the next fragment's key 0 is
      gathered as 3, with its `min_id` and order id 0 moved to 3, its sentence
      index 0 to 2 and its combine id 3 (sentence 0, node 3) to 2003. */
  lemma SecondFragmentShifted()
    ensures var first := Fragment(0, "", 3, 2, map[], map[], None);
            var second := Fragment(1, "", 4, 1, map[0 := [AlignmentRecord(0, [0], [0], [3], map[])]], map[], None);
            Merged([first, second], Mapper, 3) == Some([AlignmentRecord(3, [3], [2], [2003], map[])])
  {
    var r := AlignmentRecord(0, [0], [0], [3], map[]);
    var first := Fragment(0, "", 3, 2, map[], map[], None);
    var second := Fragment(1, "", 4, 1, map[0 := [r]], map[], None);
    assert [first, second][..1] == [first];
    assert [first][..0] == [];
    assert Offset([first], Nodes) == Offset([], Nodes) + Size(first, Nodes) == 3;
    assert Offset([first], Sentences) == Offset([], Sentences) + Size(first, Sentences) == 2;
    var moved := ShiftRecord(r, Mapper, 3, 2);
    assert moved.orderIds == [3] && moved.sentIndexes == [2] && moved.combineIds == [2003];
    assert ShiftRecords([r], Mapper, 3, 2) == [moved];
  }

  // ---- Phrases ----

  /** The list `phrases_gathering` extends: the phrase lists of the fragments that
      have one, in fragment order. */
  function CollectedPhrases(frags: seq<Fragment>): seq<string> {
    if frags == [] then []
    else
      var last := frags[|frags| - 1];
      CollectedPhrases(frags[..|frags| - 1]) + (if last.phrases.Some? then last.phrases.value else [])
  }

  lemma {:induction false} CollectedPhrasesMembers(frags: seq<Fragment>, p: string)
    ensures p in CollectedPhrases(frags) <==>
            exists i | 0 <= i < |frags| :: frags[i].phrases.Some? && p in frags[i].phrases.value
    decreases |frags|
  {
    if frags != [] {
      var init := frags[..|frags| - 1];
      CollectedPhrasesMembers(init, p);
      assert forall i | 0 <= i < |init| :: init[i] == frags[i];
    }
  }

  predicate NoDuplicates(s: seq<string>) {
    forall i, j | 0 <= i < j < |s| :: s[i] != s[j]
  }

  /** `list(set(all))`: each phrase once, in an order the source leaves to the hash
      set. */
  method DistinctPhrases(all: seq<string>) returns (r: seq<string>)
    ensures NoDuplicates(r)
    ensures forall p :: p in r <==> p in all
  {
    var pending := set p | p in all;
    r := [];
    while pending != {}
      invariant NoDuplicates(r)
      invariant forall p :: p in all <==> p in r || p in pending
      invariant forall p | p in r :: p !in pending
      decreases pending
    {
      var p := PickKey(pending);
      r := r + [p];
      pending := pending - {p};
    }
  }

  // ---- From text to fragments ----

  /** A fragment to be analysed: its id and its text. */
  datatype Piece = Piece(id: nat, text: string)

  /** `enumerate(texts)`, keeping the chunks that are not blank, stripped, under
      their position in `texts`. */
  function NumberChunks(chunks: seq<string>): seq<Piece> {
    if chunks == [] then []
    else
      var n := |chunks| - 1;
      NumberChunks(chunks[..n]) + (if Strip(chunks[n]) != [] then [Piece(n, Strip(chunks[n]))] else [])
  }

  /** The fragments the constructor creates from extracted text: none when the text
      is missing or blank; with big-campaign mode, one per chunk of the segmenter;
      otherwise the whole text, unstripped, as fragment 0. */
  function FragmentPlan(text: Option<string>, enableBig: bool): seq<Piece> {
    if text.None? || Strip(text.value) == [] then []
    else if enableBig then NumberChunks(Segment(text.value))
    else [Piece(0, text.value)]
  }

  /** Lines 34-46 of the constructor. */
  method PlanFragments(text: Option<string>, enableBig: bool) returns (plan: seq<Piece>)
    ensures plan == FragmentPlan(text, enableBig)
  {
    plan := [];
    if text.Some? && Strip(text.value) != [] {
      if enableBig {
        var texts := SmartTextSplit(text.value);
        plan := NumberTexts(texts);
      } else {
        plan := [Piece(0, text.value)];
      }
    }
  }

  /** The numbering loop of the constructor: chunk `idx` becomes fragment `idx`,
      stripped, unless it is blank. */
  method NumberTexts(texts: seq<string>) returns (plan: seq<Piece>)
    ensures plan == NumberChunks(texts)
  {
    plan := [];
    for idx := 0 to |texts|
      invariant plan == NumberChunks(texts[..idx])
    {
      assert texts[..idx + 1][..idx] == texts[..idx];
      if Strip(texts[idx]) != [] {
        plan := plan + [Piece(idx, Strip(texts[idx]))];
      }
    }
    assert texts[..|texts|] == texts;
  }

  lemma {:induction false} NumberCleanChunks(chunks: seq<string>)
    requires Clean(chunks)
    ensures |NumberChunks(chunks)| == |chunks|
    ensures forall i | 0 <= i < |chunks| :: NumberChunks(chunks)[i] == Piece(i, chunks[i])
    decreases |chunks|
  {
    if chunks != [] {
      var n := |chunks| - 1;
      assert Clean(chunks[..n]);
      NumberCleanChunks(chunks[..n]);
      StrippedFixed(chunks[n]);
    }
  }

  /** A missing or blank text gives no fragment; otherwise big-campaign mode gives
      fragments 0, 1, ... holding exactly the segmenter's chunks, and the other mode
      one fragment 0 holding the text. */
  lemma PlanShape(text: Option<string>, enableBig: bool)
    ensures text.None? || AllSpace(text.value) ==> FragmentPlan(text, enableBig) == []
    ensures text.Some? && !AllSpace(text.value) && !enableBig ==> FragmentPlan(text, enableBig) == [Piece(0, text.value)]
    ensures text.Some? && !AllSpace(text.value) && enableBig ==>
              |FragmentPlan(text, enableBig)| == |Segment(text.value)| &&
              forall i | 0 <= i < |Segment(text.value)| :: FragmentPlan(text, enableBig)[i] == Piece(i, Segment(text.value)[i])
  {
    if text.Some? {
      StripKeepsContent(text.value);
      if !AllSpace(text.value) {
        SegmentShape(text.value);
        NumberCleanChunks(Segment(text.value));
      }
    }
  }

  // ---- The campaign ----

  class BigCampaign {
    var data: seq<Fragment>
    var id: string
    var mapper: Alignment
    var techAlignment: Alignment
    var phrases: seq<string>

    /** The constructor's text path: the extracted text is planned into fragments,
        each is analysed by `analyse` (the `Campaign` constructor), and the phrases
        are gathered. */
    constructor FromText(text: Option<string>, enableBig: bool, campaignId: string, analyse: Piece -> Fragment)
      ensures id == campaignId
      ensures |data| == |FragmentPlan(text, enableBig)|
      ensures forall i | 0 <= i < |data| :: data[i] == analyse(FragmentPlan(text, enableBig)[i])
      ensures mapper == map[] && techAlignment == map[]
      ensures NoDuplicates(phrases) && forall p :: p in phrases <==> p in CollectedPhrases(data)
    {
      id := campaignId;
      mapper := map[];
      techAlignment := map[];
      var plan := PlanFragments(text, enableBig);
      var fragments := AnalyseAll(plan, analyse);
      data := fragments;
      phrases := [];
      new;
      PhrasesGathering();
    }

    /** One `Campaign` per planned fragment, in plan order. */
    static method AnalyseAll(plan: seq<Piece>, analyse: Piece -> Fragment) returns (fragments: seq<Fragment>)
      ensures |fragments| == |plan|
      ensures forall j | 0 <= j < |plan| :: fragments[j] == analyse(plan[j])
    {
      fragments := [];
      for i := 0 to |plan|
        invariant |fragments| == i
        invariant forall j | 0 <= j < i :: fragments[j] == analyse(plan[j])
      {
        fragments := fragments + [analyse(plan[i])];
      }
    }

    method MapperGathering()
      requires AllShiftable(data, Mapper)
      modifies this`mapper
      ensures forall key :: Find(mapper, key) == Merged(data, Mapper, key)
    {
      mapper := GatherTable(data, Mapper);
    }

    method TechMapperGathering()
      requires AllShiftable(data, TechAlignment)
      modifies this`techAlignment
      ensures forall key :: Find(techAlignment, key) == Merged(data, TechAlignment, key)
    {
      techAlignment := GatherTable(data, TechAlignment);
    }

    method PhrasesGathering()
      modifies this`phrases
      ensures NoDuplicates(phrases)
      ensures forall p :: p in phrases <==> p in CollectedPhrases(data)
    {
      var all := [];
      for i := 0 to |data|
        invariant all == CollectedPhrases(data[..i])
      {
        assert data[..i + 1][..i] == data[..i];
        if data[i].phrases.Some? {
          all := all + data[i].phrases.value;
        }
      }
      assert data[..|data|] == data;
      phrases := DistinctPhrases(all);
    }
  }
}
