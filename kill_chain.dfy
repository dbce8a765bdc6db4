/**
 * The report generator's view of a RAF-AG result: every technique of the best
 * path becomes an entry carrying its step, tactic and description; the entries
 * are grouped into a kill chain by tactic, the groups are linked into attack
 * paths, and the entries are listed as table rows in step order.
 */
module KillChain {
  import opened Optional
  import opened Text
  import opened Seqs
  import opened Sorting
  import opened AttackTables

  // ---- Input ----

  /** A technique of a step of the result; a key the JSON object lacks is `None`.
      `techName` is the `tech_name` key, `techNameCamel` the older `techName`. */
  datatype Technique = Technique(
    techId: Option<string>, techName: Option<string>, techNameCamel: Option<string>, value: Option<real>)

  /** A step of the best path: the number `int(step_key)` and its techniques. */
  datatype Step = Step(number: int, techniques: seq<Technique>)

  /** The loaded result; `best` is `None` when the document has no `'best'` key. The
      steps are in the document's order. */
  datatype RafData = RafData(best: Option<seq<Step>>)

  function IdOf(t: Technique): string {
    t.techId.GetOr("Unknown")
  }

  function NameOf(t: Technique): string {
    match t.techName
    case Some(n) => n
    case None => t.techNameCamel.GetOr("Unknown")
  }

  function ConfidenceOf(t: Technique): real {
    t.value.GetOr(0.0)
  }

  /** The `technique_info` record of the kill chain (observed indicators aside).
      The description, implementation methods and tools are those of `described`. */
  datatype Entry = Entry(
    step: int, techniqueId: string, techniqueName: string, confidence: real,
    slot: TacticSlot, tacticName: string, described: Description)
  {
    function Info(): TechniqueInfo {
      InfoOf(described)
    }
  }

  function EntryOf(step: int, t: Technique): Entry {
    var id := IdOf(t);
    var slot := TacticOf(id);
    Entry(step, id, NameOf(t), ConfidenceOf(t), slot, SlotName(slot, "Unknown Tactic"), DescriptionOf(id))
  }

  function StepEntries(s: Step): seq<Entry> {
    seq(|s.techniques|, i requires 0 <= i < |s.techniques| => EntryOf(s.number, s.techniques[i]))
  }

  /** The entries of all steps, step after step, each in its step's order. */
  function Entries(steps: seq<Step>): seq<Entry> {
    if steps == [] then [] else Entries(steps[..|steps| - 1]) + StepEntries(steps[|steps| - 1])
  }

  function TechniqueCount(steps: seq<Step>): nat {
    if steps == [] then 0 else TechniqueCount(steps[..|steps| - 1]) + |steps[|steps| - 1].techniques|
  }

  /** One entry per technique of the result. */
  lemma {:induction false} EntriesCount(steps: seq<Step>)
    ensures |Entries(steps)| == TechniqueCount(steps)
    decreases |steps|
  {
    if steps != [] {
      EntriesCount(steps[..|steps| - 1]);
    }
  }

  // ---- Slots ----

  /** Every slot, in kill-chain order: the tactics of `TACTIC_ORDER`, then `Unknown`. */
  function AllSlots(): (slots: seq<TacticSlot>)
    ensures |slots| == |TacticOrder| + 1
  {
    seq(|TacticOrder|, i requires 0 <= i < |TacticOrder| => Known(TacticOrder[i])) + [Unknown]
  }

  /** A slot's position in the kill chain. */
  function SlotIndex(s: TacticSlot): nat {
    match s
    case Known(t) => TacticIndex(t)
    case Unknown => |TacticOrder|
  }

  /** Each slot occurs in `AllSlots()` exactly once, at its own position. */
  lemma AllSlotsFacts()
    ensures forall i :: 0 <= i < |AllSlots()| ==> SlotIndex(AllSlots()[i]) == i
    ensures forall s :: s in AllSlots()
  {
    TacticOrderFacts();
    var slots := AllSlots();
    forall i | 0 <= i < |slots| ensures SlotIndex(slots[i]) == i {
      if i < |TacticOrder| {
        var t := TacticOrder[i];
        assert TacticOrder[TacticIndex(t)] == t;
      }
    }
    forall s ensures s in slots {
      assert slots[SlotIndex(s)] == s;
    }
  }

  // ---- Kill chain ----

  /** The entries of one slot, in input order. */
  function Bucket(es: seq<Entry>, s: TacticSlot): seq<Entry> {
    Filter(es, (e: Entry) => e.slot == s)
  }

  lemma BucketSnoc(es: seq<Entry>, e: Entry, s: TacticSlot)
    ensures Bucket(es + [e], s) == Bucket(es, s) + (if e.slot == s then [e] else [])
  {
    assert (es + [e])[..|es|] == es;
  }

  /** A slot's bucket holds exactly the entries of that slot, each as often as the
      step list does. */
  lemma BucketFacts(es: seq<Entry>, s: TacticSlot)
    ensures forall e :: e in Bucket(es, s) <==> e in es && e.slot == s
    ensures Bucket(es, s) == [] <==> s !in SlotsOf(es)
    ensures forall e :: multiset(Bucket(es, s))[e] == if e.slot == s then multiset(es)[e] else 0
  {
    FilterFacts(es, (e: Entry) => e.slot == s);
    if s in SlotsOf(es) {
      var e :| e in es && e.slot == s;
      assert e in Bucket(es, s);
    }
  }

  /** The sort key of a tactic group: descending confidence, then ascending step. */
  function ByConfidence(e: Entry): Rank {
    (-e.confidence, e.step)
  }

  function SlotsOf(es: seq<Entry>): set<TacticSlot> {
    set e | e in es :: e.slot
  }

  type KillChainMap = map<TacticSlot, seq<Entry>>

  /** For every slot some entry has, that slot's entries sorted by `ByConfidence`. */
  function Grouped(es: seq<Entry>): KillChainMap {
    map s | s in SlotsOf(es) :: SortBy(Bucket(es, s), ByConfidence)
  }

  /** The kill chain of a result; nothing at all without a `'best'` key. */
  function KillChainOf(raf: RafData): KillChainMap {
    match raf.best
    case None => map[]
    case Some(steps) => Grouped(Entries(steps))
  }

  /** Each group of the kill chain is non-empty, holds exactly the entries of its
      slot, is sorted by descending confidence then ascending step, and keeps
      entries with equal confidence and step in input order. */
  lemma GroupFacts(es: seq<Entry>, s: TacticSlot)
    requires s in Grouped(es)
    ensures var group := Grouped(es)[s];
            && group != []
            && multiset(group) == multiset(Bucket(es, s))
            && (forall e :: e in group <==> e in es && e.slot == s)
            && SortedBy(group, ByConfidence)
            && (forall k :: WithRank(group, ByConfidence, k) == WithRank(Bucket(es, s), ByConfidence, k))
  {
    var group := Grouped(es)[s];
    BucketFacts(es, s);
    assert group == SortBy(Bucket(es, s), ByConfidence);
    forall e ensures e in group <==> e in Bucket(es, s) {
      assert e in group <==> e in multiset(group);
      assert e in Bucket(es, s) <==> e in multiset(Bucket(es, s));
    }
  }

  /** Every entry lands in its own slot's group and in no other. */
  lemma EveryEntryGrouped(es: seq<Entry>)
    ensures var kc := Grouped(es);
            && (forall e :: e in es ==> e.slot in kc && e in kc[e.slot])
            && (forall s: TacticSlot, e: Entry :: s in kc && e in kc[s] ==> e.slot == s)
  {
    var kc := Grouped(es);
    forall e | e in es ensures e.slot in kc && e in kc[e.slot] {
      assert e.slot in SlotsOf(es);
      GroupFacts(es, e.slot);
    }
    forall s: TacticSlot, e: Entry | s in kc && e in kc[s] ensures e.slot == s {
      GroupFacts(es, s);
    }
  }

  /** Without a `'best'` key the kill chain is empty. */
  lemma NoBestNoKillChain(raf: RafData)
    requires raf.best.None?
    ensures KillChainOf(raf) == map[]
    ensures AttackPathsOf(KillChainOf(raf)) == []
  {
    ActiveTacticsFacts(map[]);
  }

  // ---- Counting the groups ----

  function GroupSize(kc: KillChainMap, s: TacticSlot): nat {
    if s in kc then |kc[s]| else 0
  }

  function SizeSum(kc: KillChainMap, slots: seq<TacticSlot>): nat {
    if slots == [] then 0 else SizeSum(kc, slots[..|slots| - 1]) + GroupSize(kc, slots[|slots| - 1])
  }

  function BucketSum(es: seq<Entry>, slots: seq<TacticSlot>): nat {
    if slots == [] then 0 else BucketSum(es, slots[..|slots| - 1]) + |Bucket(es, slots[|slots| - 1])|
  }

  /** The number of times `s` occurs in `slots`. */
  function Occurrences(slots: seq<TacticSlot>, s: TacticSlot): nat {
    if slots == [] then 0
    else Occurrences(slots[..|slots| - 1], s) + (if slots[|slots| - 1] == s then 1 else 0)
  }

  lemma {:induction false} BucketSumSnoc(es: seq<Entry>, e: Entry, slots: seq<TacticSlot>)
    ensures BucketSum(es + [e], slots) == BucketSum(es, slots) + Occurrences(slots, e.slot)
    decreases |slots|
  {
    if slots != [] {
      BucketSumSnoc(es, e, slots[..|slots| - 1]);
      BucketSnoc(es, e, slots[|slots| - 1]);
    }
  }

  /** When each slot occurs once in `slots`, the buckets over `slots` split the
      entries: their sizes add up to the number of entries. */
  lemma {:induction false} BucketsPartition(es: seq<Entry>, slots: seq<TacticSlot>)
    requires forall s :: Occurrences(slots, s) == 1
    ensures BucketSum(es, slots) == |es|
    decreases |es|
  {
    if es == [] {
      BucketSumEmpty(slots);
    } else {
      var init := es[..|es| - 1];
      BucketsPartition(init, slots);
      BucketSumSnoc(init, es[|es| - 1], slots);
      assert init + [es[|es| - 1]] == es;
    }
  }

  lemma {:induction false} BucketSumEmpty(slots: seq<TacticSlot>)
    ensures BucketSum([], slots) == 0
    decreases |slots|
  {
    if slots != [] {
      BucketSumEmpty(slots[..|slots| - 1]);
    }
  }

  lemma {:induction false} OccurrencesOnce(slots: seq<TacticSlot>, s: TacticSlot)
    requires forall i :: 0 <= i < |slots| ==> SlotIndex(slots[i]) == i
    ensures Occurrences(slots, s) == (if SlotIndex(s) < |slots| then 1 else 0)
    decreases |slots|
  {
    if slots != [] {
      var init := slots[..|slots| - 1];
      assert forall i :: 0 <= i < |init| ==> init[i] == slots[i];
      OccurrencesOnce(init, s);
      if slots[|slots| - 1] == s {
        assert SlotIndex(s) == |slots| - 1;
      } else if SlotIndex(s) == |slots| - 1 {
        assert SlotIndex(slots[|slots| - 1]) == |slots| - 1;
        SlotIndexInjective(slots[|slots| - 1], s);
      }
    }
  }

  lemma SlotIndexInjective(a: TacticSlot, b: TacticSlot)
    requires SlotIndex(a) == SlotIndex(b)
    ensures a == b
  {
    if a.Known? && b.Known? {
      assert TacticOrder[TacticIndex(a.tactic)] == a.tactic;
    }
  }

  lemma {:induction false} SizeSumIsBucketSum(es: seq<Entry>, slots: seq<TacticSlot>)
    ensures SizeSum(Grouped(es), slots) == BucketSum(es, slots)
    decreases |slots|
  {
    if slots != [] {
      SizeSumIsBucketSum(es, slots[..|slots| - 1]);
      BucketFacts(es, slots[|slots| - 1]);
    }
  }

  /** No technique is lost or counted twice: the groups of the kill chain together
      hold one entry per technique of the result. */
  lemma KillChainTotal(raf: RafData)
    ensures SizeSum(KillChainOf(raf), AllSlots()) == match raf.best case None => 0 case Some(steps) => TechniqueCount(steps)
  {
    var slots := AllSlots();
    if raf.best.None? {
      SizeSumEmptyMap(slots);
    } else {
      var es := Entries(raf.best.value);
      AllSlotsFacts();
      forall s ensures Occurrences(slots, s) == 1 {
        OccurrencesOnce(slots, s);
        assert slots[SlotIndex(s)] == s;
      }
      BucketsPartition(es, slots);
      SizeSumIsBucketSum(es, slots);
      EntriesCount(raf.best.value);
    }
  }

  lemma {:induction false} SizeSumEmptyMap(slots: seq<TacticSlot>)
    ensures SizeSum(map[], slots) == 0
    decreases |slots|
  {
    if slots != [] {
      SizeSumEmptyMap(slots[..|slots| - 1]);
    }
  }

  // ---- Attack paths ----

  datatype PathType = Primary | Alternative

  /** A link from a technique of one tactic to a technique of the next. */
  datatype AttackPath = AttackPath(
    fromTactic: string, fromTechnique: string, toTactic: string, toTechnique: string,
    confidence: real, pathType: PathType)

  /** `f"{technique_id} - {technique_name}"`. */
  function Label(e: Entry): string {
    e.techniqueId + " - " + e.techniqueName
  }

  /** `MITRE_TACTICS.get(slot, slot)`. */
  function SlotTitle(s: TacticSlot): string {
    SlotName(s, SlotId(s))
  }

  function Link(a: TacticSlot, x: Entry, b: TacticSlot, y: Entry, kind: PathType): AttackPath {
    AttackPath(SlotTitle(a), Label(x), SlotTitle(b), Label(y), (x.confidence + y.confidence) / 2.0, kind)
  }

  /** A slot is active when the kill chain has a non-empty group for it. */
  function IsActive(kc: KillChainMap): TacticSlot -> bool {
    s => s in kc && kc[s] != []
  }

  /** The active slots, in kill-chain order with `Unknown` last. */
  function ActiveTactics(kc: KillChainMap): seq<TacticSlot> {
    Filter(AllSlots(), IsActive(kc))
  }

  /** The paths between two adjacent active slots: the primary one linking their
      first techniques, and an alternative one linking their second techniques
      when both groups have a second. */
  function PathsBetween(kc: KillChainMap, a: TacticSlot, b: TacticSlot): seq<AttackPath>
    requires IsActive(kc)(a) && IsActive(kc)(b)
  {
    var xs, ys := kc[a], kc[b];
    [Link(a, xs[0], b, ys[0], Primary)]
    + (if |xs| >= 2 && |ys| >= 2 then [Link(a, xs[1], b, ys[1], Alternative)] else [])
  }

  predicate AllActive(kc: KillChainMap, active: seq<TacticSlot>) {
    forall i :: 0 <= i < |active| ==> IsActive(kc)(active[i])
  }

  /** The paths along a run of active slots, pair after pair. */
  function PathsAlong(kc: KillChainMap, active: seq<TacticSlot>): seq<AttackPath>
    requires AllActive(kc, active)
  {
    if |active| < 2 then []
    else PathsAlong(kc, active[..|active| - 1]) + PathsBetween(kc, active[|active| - 2], active[|active| - 1])
  }

  function AttackPathsOf(kc: KillChainMap): seq<AttackPath> {
    ActiveTacticsFacts(kc);
    PathsAlong(kc, ActiveTactics(kc))
  }

  /** The active slots are exactly the slots with a non-empty group, each once, in
      kill-chain order. */
  lemma ActiveTacticsFacts(kc: KillChainMap)
    ensures AllActive(kc, ActiveTactics(kc))
    ensures forall s :: s in ActiveTactics(kc) <==> s in kc && kc[s] != []
    ensures forall i, j :: 0 <= i < j < |ActiveTactics(kc)| ==>
              SlotIndex(ActiveTactics(kc)[i]) < SlotIndex(ActiveTactics(kc)[j])
  {
    AllSlotsFacts();
    FilterMembers(AllSlots(), IsActive(kc));
    FilterIncreasing(AllSlots(), IsActive(kc));
  }

  lemma {:induction false} FilterIncreasing(slots: seq<TacticSlot>, keep: TacticSlot -> bool)
    requires forall i, j :: 0 <= i < j < |slots| ==> SlotIndex(slots[i]) < SlotIndex(slots[j])
    ensures forall i, j :: 0 <= i < j < |Filter(slots, keep)| ==>
              SlotIndex(Filter(slots, keep)[i]) < SlotIndex(Filter(slots, keep)[j])
    decreases |slots|
  {
    if slots != [] {
      var init := slots[..|slots| - 1];
      var last := slots[|slots| - 1];
      FilterIncreasing(init, keep);
      FilterMembers(init, keep);
      var f := Filter(init, keep);
      if keep(last) {
        var r := f + [last];
        assert Filter(slots, keep) == r;
        forall i, j | 0 <= i < j < |r| ensures SlotIndex(r[i]) < SlotIndex(r[j]) {
          assert r[i] == f[i] && f[i] in f;
          var k :| 0 <= k < |init| && init[k] == f[i];
          assert slots[k] == f[i];
          if j < |f| {
            assert r[j] == f[j];
          }
        }
      }
    }
  }

  lemma PathsAlongSnoc(kc: KillChainMap, active: seq<TacticSlot>, i: nat)
    requires AllActive(kc, active) && i + 1 < |active|
    ensures PathsAlong(kc, active[..i + 2]) == PathsAlong(kc, active[..i + 1]) + PathsBetween(kc, active[i], active[i + 1])
  {
    assert active[..i + 2][..i + 1] == active[..i + 1];
  }

  predicate IsPrimary(p: AttackPath) {
    p.pathType == Primary
  }

  /** The primary path of the `i`-th pair of adjacent active slots. */
  function PrimaryLink(kc: KillChainMap, active: seq<TacticSlot>, i: nat): AttackPath
    requires AllActive(kc, active) && i + 1 < |active|
  {
    Link(active[i], kc[active[i]][0], active[i + 1], kc[active[i + 1]][0], Primary)
  }

  /** The primary link of each adjacent pair of `active`, pair after pair. */
  function PrimaryLinks(kc: KillChainMap, active: seq<TacticSlot>): seq<AttackPath>
    requires AllActive(kc, active)
  {
    if |active| < 2 then []
    else PrimaryLinks(kc, active[..|active| - 1]) + [PrimaryLink(kc, active, |active| - 2)]
  }

  /** The primary paths are exactly the primary links, in order: one per adjacent
      pair of active slots. */
  lemma {:induction false} PrimaryPaths(kc: KillChainMap, active: seq<TacticSlot>)
    requires AllActive(kc, active)
    ensures Filter(PathsAlong(kc, active), IsPrimary) == PrimaryLinks(kc, active)
    decreases |active|
  {
    if |active| >= 2 {
      var init := active[..|active| - 1];
      PrimaryPaths(kc, init);
      var a, b := active[|active| - 2], active[|active| - 1];
      FilterAppend(PathsAlong(kc, init), PathsBetween(kc, a, b), IsPrimary);
      PrimaryBetween(kc, a, b);
    }
  }

  /** There are `n - 1` primary links for `n` active slots, the `i`-th linking the
      first (highest-confidence) techniques of the `i`-th and `i + 1`-th groups. */
  lemma {:induction false} PrimaryLinksFacts(kc: KillChainMap, active: seq<TacticSlot>)
    requires AllActive(kc, active)
    ensures |PrimaryLinks(kc, active)| == if |active| < 2 then 0 else |active| - 1
    ensures forall i :: 0 <= i < |PrimaryLinks(kc, active)| ==>
              PrimaryLinks(kc, active)[i] == PrimaryLink(kc, active, i)
    decreases |active|
  {
    if |active| >= 2 {
      var init := active[..|active| - 1];
      PrimaryLinksFacts(kc, init);
      forall i | 0 <= i < |active| - 2 ensures PrimaryLink(kc, init, i) == PrimaryLink(kc, active, i) {
        assert init[i] == active[i] && init[i + 1] == active[i + 1];
      }
    }
  }

  /** Of the paths between two slots, only the first is primary. */
  lemma PrimaryBetween(kc: KillChainMap, a: TacticSlot, b: TacticSlot)
    requires IsActive(kc)(a) && IsActive(kc)(b)
    ensures Filter(PathsBetween(kc, a, b), IsPrimary) == [Link(a, kc[a][0], b, kc[b][0], Primary)]
  {
    var ps := PathsBetween(kc, a, b);
    var first := [ps[0]];
    assert first[..0] == [];
    assert Filter(first, IsPrimary) == first;
    if |ps| == 2 {
      assert ps[..1] == first;
      assert !IsPrimary(ps[1]);
    } else {
      assert ps == first;
    }
  }

  /** Every pair contributes one or two paths, and a second, alternative one exactly
      when both groups have at least two techniques; it links their second entries. */
  lemma PathsBetweenFacts(kc: KillChainMap, a: TacticSlot, b: TacticSlot)
    requires IsActive(kc)(a) && IsActive(kc)(b)
    ensures var ps := PathsBetween(kc, a, b);
            && 1 <= |ps| <= 2
            && ps[0] == Link(a, kc[a][0], b, kc[b][0], Primary)
            && (|ps| == 2 <==> |kc[a]| >= 2 && |kc[b]| >= 2)
            && (|ps| == 2 ==> ps[1] == Link(a, kc[a][1], b, kc[b][1], Alternative))
  {
  }

  /** Between `n - 1` and `2 * (n - 1)` paths for `n` active slots. */
  lemma {:induction false} PathCount(kc: KillChainMap, active: seq<TacticSlot>)
    requires AllActive(kc, active)
    ensures |active| < 2 ==> PathsAlong(kc, active) == []
    ensures |active| >= 2 ==> |active| - 1 <= |PathsAlong(kc, active)| <= 2 * (|active| - 1)
    decreases |active|
  {
    if |active| >= 2 {
      PathCount(kc, active[..|active| - 1]);
    }
  }

  // ---- Table rows ----

  /** A table row; `stage` is the step number the row's `Stage` column names, and
      the description columns are those of `described`, lists joined by `"; "`. */
  datatype Row = Row(
    stage: int, tacticId: string, tacticName: string, techniqueId: string, techniqueName: string,
    described: Description, confidence: real)
  {
    function Description(): string {
      InfoOf(described).description
    }

    function ImplementationMethods(): string {
      Join(InfoOf(described).implementation, "; ")
    }

    function AssociatedTools(): string {
      Join(InfoOf(described).tools, "; ")
    }
  }

  function RowOf(e: Entry): Row {
    Row(e.step, SlotId(e.slot), e.tacticName, e.techniqueId, e.techniqueName, e.described, e.confidence)
  }

  function RowsInOrder(es: seq<Entry>): seq<Row> {
    seq(|es|, i requires 0 <= i < |es| => RowOf(es[i]))
  }

  lemma RowsInOrderAppend(a: seq<Entry>, b: seq<Entry>)
    ensures RowsInOrder(a + b) == RowsInOrder(a) + RowsInOrder(b)
  {
  }

  lemma EntriesSnoc(steps: seq<Step>, i: nat)
    requires i < |steps|
    ensures Entries(steps[..i + 1]) == Entries(steps[..i]) + StepEntries(steps[i])
  {
    assert steps[..i + 1][..i] == steps[..i];
  }

  /** The sort key of the table: the step number alone. */
  function ByStage(r: Row): Rank {
    (0.0, r.stage)
  }

  function RowsOf(raf: RafData): seq<Row> {
    match raf.best
    case None => []
    case Some(steps) => SortBy(RowsInOrder(Entries(steps)), ByStage)
  }

  /** One row per technique, in ascending step order; rows of the same step keep
      the order of the document. */
  lemma RowsFacts(raf: RafData)
    requires raf.best.Some?
    ensures var rows, es := RowsOf(raf), Entries(raf.best.value);
            && |rows| == TechniqueCount(raf.best.value)
            && multiset(rows) == multiset(RowsInOrder(es))
            && (forall i, j :: 0 <= i < j < |rows| ==> rows[i].stage <= rows[j].stage)
            && (forall k :: WithRank(rows, ByStage, k) == WithRank(RowsInOrder(es), ByStage, k))
  {
    EntriesCount(raf.best.value);
    var rows := RowsOf(raf);
    forall i, j | 0 <= i < j < |rows| ensures rows[i].stage <= rows[j].stage {
      assert !Below(ByStage(rows[j]), ByStage(rows[i]));
    }
  }

  // ---- The generator ----

  /** The report generator: it keeps the last kill chain and attack paths it built. */
  class AttackChainTableGenerator {
    var killChain: KillChainMap
    var attackPaths: seq<AttackPath>

    constructor()
      ensures killChain == map[] && attackPaths == []
    {
      killChain := map[];
      attackPaths := [];
    }

    /** `generate_kill_chain_structure`. */
    method GenerateKillChainStructure(raf: RafData) returns (kc: KillChainMap)
      ensures kc == KillChainOf(raf)
    {
      if raf.best.None? {
        return map[];
      }
      var steps := raf.best.value;
      kc := map s | s in KnownSlots() :: [];
      InitiallyCollected();
      for i := 0 to |steps|
        invariant Collected(kc, Entries(steps[..i]))
      {
        kc := AddEntries(kc, Entries(steps[..i]), StepEntries(steps[i]));
        assert steps[..i + 1][..i] == steps[..i];
      }
      assert steps[..|steps|] == steps;
      SortAndPrune(kc, Entries(steps));
      kc := SortGroups(kc);
      kc := NonEmptyGroups(kc);
    }

    /** The grouping loop over the techniques of one step, given their entries. */
    static method AddEntries(kc0: KillChainMap, done: seq<Entry>, added: seq<Entry>) returns (kc: KillChainMap)
      requires Collected(kc0, done)
      ensures Collected(kc, done + added)
    {
      kc := kc0;
      assert done + added[..0] == done;
      for j := 0 to |added|
        invariant Collected(kc, done + added[..j])
      {
        var e := added[j];
        var before := kc;
        if e.slot in kc {
          kc := kc[e.slot := kc[e.slot] + [e]];
        } else {
          if Unknown !in kc {
            kc := kc[Unknown := []];
          }
          kc := kc[Unknown := kc[Unknown] + [e]];
        }
        CollectStep(before, kc, done + added[..j], e);
        PrefixSnoc(done, added, j);
      }
      assert added[..|added|] == added;
    }

    /** `generate_attack_paths`. */
    method GenerateAttackPaths(kc: KillChainMap) returns (paths: seq<AttackPath>)
      ensures paths == AttackPathsOf(kc)
    {
      var active := CollectActive(kc);
      ActiveTacticsFacts(kc);
      paths := LinkActive(kc, active);
    }

    /** The second loop of `generate_attack_paths`: the paths of each adjacent pair
        of active slots, the nested loops over `[1:2]` slices being the test for a
        second technique in both groups. */
    static method LinkActive(kc: KillChainMap, active: seq<TacticSlot>) returns (paths: seq<AttackPath>)
      requires AllActive(kc, active)
      ensures paths == PathsAlong(kc, active)
    {
      paths := [];
      if |active| >= 2 {
        for i := 0 to |active| - 1
          invariant paths == PathsAlong(kc, active[..i + 1])
        {
          var current, next := active[i], active[i + 1];
          var xs, ys := kc[current], kc[next];
          ghost var before := paths;
          paths := paths + [Link(current, xs[0], next, ys[0], Primary)];
          if |xs| >= 2 && |ys| >= 2 {
            paths := paths + [Link(current, xs[1], next, ys[1], Alternative)];
          }
          assert paths == before + PathsBetween(kc, current, next);
          PathsAlongSnoc(kc, active, i);
        }
        assert active[..|active|] == active;
      }
    }

    /** The first loop of `generate_attack_paths`: the tactics of `TACTIC_ORDER`
        with a non-empty group, then `Unknown` if its group is non-empty. */
    static method CollectActive(kc: KillChainMap) returns (active: seq<TacticSlot>)
      ensures active == ActiveTactics(kc)
    {
      active := [];
      var slots := AllSlots();
      for i := 0 to |TacticOrder|
        invariant active == Filter(slots[..i], IsActive(kc))
      {
        var s := Known(TacticOrder[i]);
        assert slots[..i + 1] == slots[..i] + [s];
        if s in kc && kc[s] != [] {
          active := active + [s];
        }
      }
      assert slots == slots[..|TacticOrder|] + [Unknown];
      if Unknown in kc && kc[Unknown] != [] {
        active := active + [Unknown];
      }
    }

    /** `generate_tabular_data`: the rows, and the kill chain and paths it stores. */
    method GenerateTabularData(raf: RafData) returns (rows: seq<Row>)
      modifies this
      ensures rows == RowsOf(raf)
      ensures killChain == KillChainOf(raf)
      ensures attackPaths == AttackPathsOf(killChain)
    {
      rows := TableRows(raf);
      killChain := GenerateKillChainStructure(raf);
      attackPaths := GenerateAttackPaths(killChain);
    }

    /** The row loop of `generate_tabular_data` and the sort by step. */
    static method TableRows(raf: RafData) returns (rows: seq<Row>)
      ensures rows == RowsOf(raf)
    {
      rows := [];
      if raf.best.Some? {
        var steps := raf.best.value;
        for i := 0 to |steps|
          invariant rows == RowsInOrder(Entries(steps[..i]))
        {
          rows := AddRows(rows, StepEntries(steps[i]));
          EntriesSnoc(steps, i);
          RowsInOrderAppend(Entries(steps[..i]), StepEntries(steps[i]));
        }
        assert steps[..|steps|] == steps;
        rows := SortBy(rows, ByStage);
      }
    }
  }

  /** The row loop over the techniques of one step, given their entries. */
  method AddRows(rows0: seq<Row>, added: seq<Entry>) returns (rows: seq<Row>)
    ensures rows == rows0 + RowsInOrder(added)
  {
    rows := rows0;
    for j := 0 to |added|
      invariant rows == rows0 + RowsInOrder(added[..j])
    {
      rows := rows + [RowOf(added[j])];
    }
    assert added[..|added|] == added;
  }

  /** The slots `{tactic_id: [] for tactic_id in TACTIC_ORDER}` starts with. */
  function KnownSlots(): set<TacticSlot> {
    set i | 0 <= i < |TacticOrder| :: Known(TacticOrder[i])
  }

  /** `kc` is the grouping loop's state after the entries `es`: every tactic has a
      group, each group holds its slot's entries in input order, and `Unknown`
      has a group once some entry needed it. */
  predicate Collected(kc: KillChainMap, es: seq<Entry>) {
    && (forall t: Tactic :: Known(t) in kc)
    && (forall s :: s in kc ==> kc[s] == Bucket(es, s))
    && (Unknown !in kc ==> Bucket(es, Unknown) == [])
  }

  lemma InitiallyCollected()
    ensures Collected(map s | s in KnownSlots() :: [], [])
  {
    forall t: Tactic ensures Known(t) in KnownSlots() {
      assert Known(t) == Known(TacticOrder[TacticIndex(t)]);
    }
  }

  /** Appending `e` to its slot's group (creating the `Unknown` group if `e` is the
      first unmapped one) keeps the state in step with the entries. */
  lemma CollectStep(before: KillChainMap, after: KillChainMap, es: seq<Entry>, e: Entry)
    requires Collected(before, es)
    requires e.slot in before ==> after == before[e.slot := before[e.slot] + [e]]
    requires e.slot !in before ==> after == before[Unknown := (if Unknown in before then before[Unknown] else []) + [e]]
    ensures Collected(after, es + [e])
  {
    forall s ensures Bucket(es + [e], s) == Bucket(es, s) + (if e.slot == s then [e] else []) {
      BucketSnoc(es, e, s);
    }
  }

  /** Every group sorted by `ByConfidence`: the in-place sorting loop. */
  function SortGroups(kc: KillChainMap): KillChainMap {
    map s | s in kc :: SortBy(kc[s], ByConfidence)
  }

  /** `{k: v for k, v in kill_chain.items() if v}`. */
  function NonEmptyGroups(kc: KillChainMap): KillChainMap {
    map s | s in kc && kc[s] != [] :: kc[s]
  }

  /** Sorting every group and dropping the empty ones yields the kill chain. */
  lemma SortAndPrune(collected: KillChainMap, es: seq<Entry>)
    requires Collected(collected, es)
    ensures NonEmptyGroups(SortGroups(collected)) == Grouped(es)
  {
    var pruned := NonEmptyGroups(SortGroups(collected));
    var grouped := Grouped(es);
    forall s ensures (s in pruned <==> s in grouped) && (s in grouped ==> pruned[s] == grouped[s]) {
      SortAndPruneAt(collected, es, s);
    }
    assert pruned.Keys == grouped.Keys;
  }

  /** One slot of `SortAndPrune`. */
  lemma SortAndPruneAt(collected: KillChainMap, es: seq<Entry>, s: TacticSlot)
    requires Collected(collected, es)
    ensures s in NonEmptyGroups(SortGroups(collected)) <==> s in Grouped(es)
    ensures s in Grouped(es) ==> NonEmptyGroups(SortGroups(collected))[s] == Grouped(es)[s]
  {
    BucketFacts(es, s);
    var sorted := SortGroups(collected);
    assert s !in collected ==> s == Unknown;
    if s in collected {
      assert collected[s] == Bucket(es, s);
      assert sorted[s] == SortBy(Bucket(es, s), ByConfidence);
      assert |sorted[s]| == |Bucket(es, s)|;
    }
  }

}
