/**
 * The sentence-0 cleaner: drops the sentence with id 0, the graph nodes of
 * sentence 0 and every edge touching a node id in 0..999 (the ids sentence 0's
 * nodes get), and reports whether anything was dropped.
 */
module SentenceZeroCleaner {
  import opened Optional
  import opened Seqs
  import opened Records

  /** `s.get('id', -1) != 0`. */
  predicate KeepSentence(s: Sentence) {
    s.id.GetOr(-1) != 0
  }

  /** `node.get('meta', {}).get('sent_index', -1)`. */
  function SentIndexOf(n: Node): int {
    match n.meta
    case None => -1
    case Some(m) => m.sentIndex.GetOr(-1)
  }

  predicate KeepNode(n: Node) {
    SentIndexOf(n) != 0
  }

  /** The node ids sentence 0 hands out. */
  predicate SentenceZeroId(id: int) {
    0 <= id <= 999
  }

  /** An edge survives unless either end, read as -1 when missing, is in 0..999. */
  predicate KeepEdge(e: Edge) {
    !(SentenceZeroId(e.source.GetOr(-1)) || SentenceZeroId(e.dest.GetOr(-1)))
  }

  /** A list comprehension over a key that may be absent. */
  function FilterField<T>(field: Option<seq<T>>, keep: T -> bool): Option<seq<T>> {
    match field
    case None => None
    case Some(xs) => Some(Filter(xs, keep))
  }

  /** The list under a present key lost an element. */
  predicate Shrank<T>(field: Option<seq<T>>, keep: T -> bool) {
    field.Some? && |Filter(field.value, keep)| != |field.value|
  }

  function Cleaned(d: Document): Document {
    d.(sentences := FilterField(d.sentences, KeepSentence),
       graphNodes := FilterField(d.graphNodes, KeepNode),
       graphEdges := FilterField(d.graphEdges, KeepEdge))
  }

  /** Some list lost an element. */
  predicate AnyShrank(d: Document) {
    Shrank(d.sentences, KeepSentence) || Shrank(d.graphNodes, KeepNode) || Shrank(d.graphEdges, KeepEdge)
  }

  lemma ShrankIffChanged<T>(field: Option<seq<T>>, keep: T -> bool)
    ensures Shrank(field, keep) <==> FilterField(field, keep) != field
  {
    if field.Some? {
      FilterKeepsAll(field.value, keep);
    }
  }

  /** `clean_sentence_0_from_jsonl` on the loaded document: the cleaned document,
      and the flag it returns, which is set exactly when some list shrank, that
      is, exactly when the document changed (the file is rewritten only then). */
  method CleanSentenceZero(data0: Document) returns (data: Document, changed: bool)
    ensures data == Cleaned(data0)
    ensures changed <==> AnyShrank(data0)
    ensures changed <==> data != data0
  {
    data := data0;
    changed := false;
    if data.sentences.Some? {
      var originalCount := |data.sentences.value|;
      data := data.(sentences := Some(Filter(data.sentences.value, KeepSentence)));
      if |data.sentences.value| != originalCount {
        changed := true;
      }
    }
    if data.graphNodes.Some? {
      var originalCount := |data.graphNodes.value|;
      data := data.(graphNodes := Some(Filter(data.graphNodes.value, KeepNode)));
      if |data.graphNodes.value| != originalCount {
        changed := true;
      }
    }
    if data.graphEdges.Some? {
      var originalCount := |data.graphEdges.value|;
      data := data.(graphEdges := Some(Filter(data.graphEdges.value, KeepEdge)));
      if |data.graphEdges.value| != originalCount {
        changed := true;
      }
    }
    ShrankIffChanged(data0.sentences, KeepSentence);
    ShrankIffChanged(data0.graphNodes, KeepNode);
    ShrankIffChanged(data0.graphEdges, KeepEdge);
  }

  /** Exactly the sentences with id 0 go; one without an `id` stays. Those kept
      are in their original order, every copy of a kept sentence among them. */
  lemma SentenceFilter(d: Document)
    requires d.sentences.Some?
    ensures var kept := Cleaned(d).sentences.value;
            && IsSubsequence(kept, d.sentences.value)
            && (forall s :: s in kept <==> s in d.sentences.value && s.id != Some(0))
            && forall s :: multiset(kept)[s] == if s.id != Some(0) then multiset(d.sentences.value)[s] else 0
  {
    FilterFacts(d.sentences.value, KeepSentence);
  }

  /** Exactly the nodes whose `meta.sent_index` is 0 go; one without `meta` or
      without `sent_index` stays. Those kept are in their original order, every copy of a kept node
      among them. */
  lemma NodeFilter(d: Document)
    requires d.graphNodes.Some?
    ensures var kept := Cleaned(d).graphNodes.value;
            && IsSubsequence(kept, d.graphNodes.value)
            && (forall n :: n in kept <==> n in d.graphNodes.value && !(n.meta.Some? && n.meta.value.sentIndex == Some(0)))
            && forall n :: multiset(kept)[n] ==
                 if !(n.meta.Some? && n.meta.value.sentIndex == Some(0)) then multiset(d.graphNodes.value)[n] else 0
  {
    FilterFacts(d.graphNodes.value, KeepNode);
  }

  /** An edge stays exactly when each end is missing or outside 0..999, whatever
      nodes were dropped. Those kept are in their original order, every copy of a
      kept edge among them. */
  lemma EdgeFilter(d: Document)
    requires d.graphEdges.Some?
    ensures var kept := Cleaned(d).graphEdges.value;
            && IsSubsequence(kept, d.graphEdges.value)
            && (forall e :: e in kept <==>
                 && e in d.graphEdges.value
                 && (e.source.None? || e.source.value < 0 || e.source.value > 999)
                 && (e.dest.None? || e.dest.value < 0 || e.dest.value > 999))
            && forall e :: multiset(kept)[e] ==
                 if && (e.source.None? || e.source.value < 0 || e.source.value > 999)
                    && (e.dest.None? || e.dest.value < 0 || e.dest.value > 999)
                 then multiset(d.graphEdges.value)[e] else 0
  {
    FilterFacts(d.graphEdges.value, KeepEdge);
  }

  /** Absent keys stay absent, and `text` and all other keys (the mapper and the
      technique alignment among them) are left as they were. */
  lemma NothingElseChanges(d: Document)
    ensures Cleaned(d).text == d.text && Cleaned(d).other == d.other
    ensures Cleaned(d).sentences.None? <==> d.sentences.None?
    ensures Cleaned(d).graphNodes.None? <==> d.graphNodes.None?
    ensures Cleaned(d).graphEdges.None? <==> d.graphEdges.None?
  {
  }

  /** Cleaning a cleaned document finds nothing to remove. */
  lemma Idempotent(d: Document)
    ensures Cleaned(Cleaned(d)) == Cleaned(d)
    ensures !AnyShrank(Cleaned(d))
  {
    var c := Cleaned(d);
    if d.sentences.Some? {
      FilterIdempotent(d.sentences.value, KeepSentence);
    }
    if d.graphNodes.Some? {
      FilterIdempotent(d.graphNodes.value, KeepNode);
    }
    if d.graphEdges.Some? {
      FilterIdempotent(d.graphEdges.value, KeepEdge);
    }
    ShrankIffChanged(c.sentences, KeepSentence);
    ShrankIffChanged(c.graphNodes, KeepNode);
    ShrankIffChanged(c.graphEdges, KeepEdge);
  }
}
