/**
 * The navigation cleaner: removes web-page navigation (menus, site banners) that
 * crept into an extracted report, from its sentences, from the head of its full
 * text and from the graph nodes of its first sentence.
 */
module NavigationCleaner {
  import opened Optional
  import opened Text
  import opened Seqs
  import opened Records

  /** Lower-case phrases that only a site's navigation contains. */
  const NavigationIndicators: seq<string> := [
    "skip to main content",
    "microsoft security",
    "home * explore",
    "solutions +",
    "ai-powered cybersecurity",
    "cloud security",
    "data security & governance",
    "privacy & risk management",
    "* products +",
    "* partners * resources"
  ]

  /** Python's `any(indicator in lowered for indicator in indicators)`. */
  predicate AnyIndicatorIn(lowered: string, indicators: seq<string>) {
    indicators != [] && (Contains(lowered, indicators[0]) || AnyIndicatorIn(lowered, indicators[1..]))
  }

  predicate IsNavigationContent(text: string) {
    AnyIndicatorIn(Lower(text), NavigationIndicators)
  }

  lemma {:induction false} AnyIndicatorSpec(lowered: string, indicators: seq<string>)
    ensures AnyIndicatorIn(lowered, indicators) <==>
            exists i :: 0 <= i < |indicators| && Contains(lowered, indicators[i])
    decreases |indicators|
  {
    if indicators != [] {
      AnyIndicatorSpec(lowered, indicators[1..]);
      if Contains(lowered, indicators[0]) {
        assert 0 < |indicators|;
      } else {
        forall i | 0 <= i < |indicators| && Contains(lowered, indicators[i])
          ensures exists j :: 0 <= j < |indicators[1..]| && Contains(lowered, indicators[1..][j])
        {
          assert indicators[1..][i - 1] == indicators[i];
        }
        if AnyIndicatorIn(lowered, indicators[1..]) {
          var j :| 0 <= j < |indicators[1..]| && Contains(lowered, indicators[1..][j]);
          assert indicators[j + 1] == indicators[1..][j];
        }
      }
    }
  }

  /** A text is navigation content exactly when its lower-case form contains one of
      the indicators. */
  lemma NavigationContentSpec(text: string)
    ensures IsNavigationContent(text) <==>
            exists i :: 0 <= i < |NavigationIndicators| && Contains(Lower(text), NavigationIndicators[i])
  {
    AnyIndicatorSpec(Lower(text), NavigationIndicators);
  }

  /** The test ignores case. */
  lemma NavigationContentIgnoresCase(text: string)
    ensures IsNavigationContent(Lower(text)) == IsNavigationContent(text)
  {
    LowerIdempotent(text);
  }

  lemma LowerAppend(a: string, b: string)
    ensures Lower(a + b) == Lower(a) + Lower(b)
  {
  }

  lemma ContainsWithin(s: string, sub: string, a: string, b: string)
    requires Contains(s, sub)
    ensures Contains(a + s + b, sub)
  {
    var i :| 0 <= i <= |s| - |sub| && Occurs(s, sub, i);
    assert (a + s + b)[|a| + i..|a| + i + |sub|] == s[i..i + |sub|];
    assert Occurs(a + s + b, sub, |a| + i);
  }

  /** Text around navigation content is navigation content too. */
  lemma NavigationContentWithin(text: string, a: string, b: string)
    requires IsNavigationContent(text)
    ensures IsNavigationContent(a + text + b)
  {
    NavigationContentSpec(text);
    NavigationContentSpec(a + text + b);
    var i :| 0 <= i < |NavigationIndicators| && Contains(Lower(text), NavigationIndicators[i]);
    LowerAppend(a, text);
    LowerAppend(a + text, b);
    ContainsWithin(Lower(text), NavigationIndicators[i], Lower(a), Lower(b));
  }

  /** `sentence.get('text', '')`. */
  function SentenceText(s: Sentence): string {
    s.text.GetOr("")
  }

  predicate KeepSentence(s: Sentence) {
    !IsNavigationContent(SentenceText(s))
  }

  /** The full text without its first sentence when that sentence is navigation;
      the remaining sentences are joined by single blanks. */
  function CleanText(text: string): string {
    var pieces := SentenceSplit(text);
    if IsNavigationContent(pieces[0]) then Join(pieces[1..], " ") else text
  }

  /** `node.get('meta', {}).get('text', '')`. */
  function NodeText(n: Node): string {
    match n.meta
    case None => ""
    case Some(m) => m.text.GetOr("")
  }

  /** A node of sentence 0 whose text is navigation, or is the word "attacker". */
  predicate DropNode(n: Node) {
    && n.meta.Some? && n.meta.value.sentIndex == Some(0)
    && (IsNavigationContent(NodeText(n)) || Lower(NodeText(n)) == "attacker")
  }

  predicate KeepNode(n: Node) {
    !DropNode(n)
  }

  function Cleaned(d: Document): Document {
    d.(sentences := Some(Filter(d.sentences.GetOr([]), KeepSentence)),
       text := (match d.text case None => None case Some(t) => Some(CleanText(t))),
       graphNodes := (match d.graphNodes case None => None case Some(ns) => Some(Filter(ns, KeepNode))))
  }

  /** `clean_jsonl_file` on the loaded document, returning what it saves. */
  method CleanJsonlFile(data0: Document) returns (data: Document)
    ensures data == Cleaned(data0)
  {
    data := data0;
    var sentences := data.sentences.GetOr([]);
    var cleanedSentences := [];
    for i := 0 to |sentences|
      invariant cleanedSentences == Filter(sentences[..i], KeepSentence)
    {
      assert sentences[..i + 1][..i] == sentences[..i];
      if !IsNavigationContent(SentenceText(sentences[i])) {
        cleanedSentences := cleanedSentences + [sentences[i]];
      }
    }
    assert sentences[..|sentences|] == sentences;
    data := data.(sentences := Some(cleanedSentences));

    if data.text.Some? {
      var fullText := data.text.value;
      var pieces := SentenceSplit(fullText);
      if IsNavigationContent(pieces[0]) {
        data := data.(text := Some(Join(pieces[1..], " ")));
      }
    }

    if data.graphNodes.Some? {
      var nodes := data.graphNodes.value;
      var cleanedNodes := [];
      for i := 0 to |nodes|
        invariant cleanedNodes == Filter(nodes[..i], KeepNode)
      {
        assert nodes[..i + 1][..i] == nodes[..i];
        var node := nodes[i];
        var dropped := false;
        if node.meta.Some? && node.meta.value.sentIndex == Some(0) {
          var nodeText := NodeText(node);
          if IsNavigationContent(nodeText) || Lower(nodeText) == "attacker" {
            dropped := true;
          }
        }
        if !dropped {
          cleanedNodes := cleanedNodes + [node];
        }
      }
      assert nodes[..|nodes|] == nodes;
      data := data.(graphNodes := Some(cleanedNodes));
    }
  }

  /** The sentences left are those whose text (empty when missing) is not
      navigation, in their original order and every copy of each; the key is always written back, empty
      when it was absent. */
  lemma SentenceFilter(d: Document)
    ensures Cleaned(d).sentences.Some?
    ensures var kept := Cleaned(d).sentences.value;
            && IsSubsequence(kept, d.sentences.GetOr([]))
            && (forall s :: s in kept <==> s in d.sentences.GetOr([]) && !IsNavigationContent(s.text.GetOr("")))
            && (forall s :: multiset(kept)[s] ==
                  if !IsNavigationContent(s.text.GetOr("")) then multiset(d.sentences.GetOr([]))[s] else 0)
    ensures d.sentences.None? ==> Cleaned(d).sentences == Some([])
  {
    FilterFacts(d.sentences.GetOr([]), KeepSentence);
  }

  /** When the first sentence of the text is navigation it is removed and nothing
      else is: that sentence, a prefix of the old text, and the new text together
      hold every non-blank character of the old one, in order. A text that is one
      navigation sentence becomes empty. Otherwise the text is left alone. */
  lemma TextCleaning(t: string)
    ensures var first := SentenceSplit(t)[0];
            && (!IsNavigationContent(first) ==> CleanText(t) == t)
            && (IsNavigationContent(first) ==>
                  && first == t[..|first|]
                  && RemoveSpaces(first) + RemoveSpaces(CleanText(t)) == RemoveSpaces(t))
            && (IsNavigationContent(first) && |SentenceSplit(t)| == 1 ==> CleanText(t) == "")
  {
    var pieces := SentenceSplit(t);
    if IsNavigationContent(pieces[0]) {
      assert Concat(pieces) == pieces[0] + Concat(pieces[1..]);
      SentenceSplitKeepsContent(t);
      RemoveSpacesAppend(pieces[0], Concat(pieces[1..]));
      assert AllSpace(" ");
      JoinKeepsContent(pieces[1..], " ");
    }
  }

  /** The nodes left are all but those of sentence 0 whose text is navigation or
      "attacker" (in any case), in their original order and every copy of each. */
  lemma NodeFilter(d: Document)
    requires d.graphNodes.Some?
    ensures var kept := Cleaned(d).graphNodes.value;
            && IsSubsequence(kept, d.graphNodes.value)
            && (forall n :: n in kept <==>
                 && n in d.graphNodes.value
                 && !(n.meta.Some? && n.meta.value.sentIndex == Some(0)
                      && (IsNavigationContent(n.meta.value.text.GetOr("")) || Lower(n.meta.value.text.GetOr("")) == "attacker")))
            && forall n :: multiset(kept)[n] ==
                 if !(n.meta.Some? && n.meta.value.sentIndex == Some(0)
                      && (IsNavigationContent(n.meta.value.text.GetOr("")) || Lower(n.meta.value.text.GetOr("")) == "attacker"))
                 then multiset(d.graphNodes.value)[n] else 0
  {
    FilterFacts(d.graphNodes.value, KeepNode);
  }

  /** The edges and all other keys are saved as they were, and absent text and
      nodes stay absent. */
  lemma NothingElseChanges(d: Document)
    ensures Cleaned(d).graphEdges == d.graphEdges && Cleaned(d).other == d.other
    ensures Cleaned(d).text.None? <==> d.text.None?
    ensures Cleaned(d).graphNodes.None? <==> d.graphNodes.None?
  {
  }

  /** A second pass removes no further sentence or node. */
  lemma FiltersIdempotent(d: Document)
    ensures Cleaned(Cleaned(d)).sentences == Cleaned(d).sentences
    ensures Cleaned(Cleaned(d)).graphNodes == Cleaned(d).graphNodes
  {
    FilterIdempotent(d.sentences.GetOr([]), KeepSentence);
    if d.graphNodes.Some? {
      FilterIdempotent(d.graphNodes.value, KeepNode);
    }
  }
}
