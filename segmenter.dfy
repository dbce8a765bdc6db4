/**
 * The text segmenter, `BigCampaign._smart_text_split`: extracted text is cut into
 * paragraphs at blank lines; a paragraph over 1000 characters is cut into sentences,
 * which are regrouped greedily into chunks kept under 800 characters; when this
 * gives fewer than two chunks the text is cut into lines instead, and as a last
 * resort the whole text is the one chunk.
 */
module Segmenter {
  import opened Text

  const ParagraphBreak: string := "\n\n"
  const LineBreak: string := "\n"
  /** A paragraph longer than this is cut into sentences. */
  const LongParagraph: nat := 1000
  /** Sentences join the current chunk while chunk plus sentence stay under this. */
  const ChunkBudget: nat := 800

  /** Every chunk is non-empty and has no white space at either end. */
  predicate Clean(chunks: seq<string>) {
    forall k :: 0 <= k < |chunks| ==> chunks[k] != [] && Stripped(chunks[k])
  }

  /** `[p.strip() for p in parts if p.strip()]`. */
  function StrippedPieces(parts: seq<string>): (r: seq<string>)
    ensures Clean(r)
  {
    if parts == [] then []
    else
      var p := Strip(parts[|parts| - 1]);
      StrippedPieces(parts[..|parts| - 1]) + (if p != [] then [p] else [])
  }

  function Paragraphs(text: string): seq<string> {
    StrippedPieces(Split(text, ParagraphBreak))
  }

  function Lines(text: string): seq<string> {
    StrippedPieces(Split(text, LineBreak))
  }

  /** The current chunk, stripped, is emitted when it is not blank. */
  function Flush(current: string): (r: seq<string>)
    ensures Clean(r)
  {
    if Strip(current) != [] then [Strip(current)] else []
  }

  /** The chunks the grouping loop emits for the remaining `sentences`, starting
      from the chunk built so far, `current`. */
  function Group(sentences: seq<string>, current: string): seq<string> {
    if sentences == [] then Flush(current)
    else if |current + sentences[0]| < ChunkBudget then Group(sentences[1..], current + sentences[0] + " ")
    else Flush(current) + Group(sentences[1..], sentences[0] + " ")
  }

  /** The chunks one paragraph contributes. */
  function ParagraphChunks(para: string): seq<string> {
    if |para| > LongParagraph then Group(SentenceSplit(para), "") else [para]
  }

  function ChunksOf(paras: seq<string>): seq<string> {
    if paras == [] then []
    else ChunksOf(paras[..|paras| - 1]) + ParagraphChunks(paras[|paras| - 1])
  }

  /** What `_smart_text_split(text)` returns. */
  function Segment(text: string): seq<string> {
    var chunks := ChunksOf(Paragraphs(text));
    if |chunks| <= 1 then
      var lines := Lines(text);
      if lines == [] then [text] else lines
    else chunks
  }

  /** The segmenter itself: a loop over the paragraphs, and for a long paragraph a
      loop over its sentences that grows `current` and flushes it into the result. */
  method SmartTextSplit(text: string) returns (finalChunks: seq<string>)
    ensures finalChunks == Segment(text)
    ensures |finalChunks| >= 1
    ensures AllSpace(text) ==> finalChunks == [text]
    ensures !AllSpace(text) ==> Clean(finalChunks)
    ensures RemoveSpaces(Concat(finalChunks)) == RemoveSpaces(text)
  {
    var paragraphs := Paragraphs(text);
    finalChunks := [];
    for i := 0 to |paragraphs|
      invariant finalChunks == ChunksOf(paragraphs[..i])
    {
      var para := paragraphs[i];
      if |para| > LongParagraph {
        var grouped := GroupSentences(SentenceSplit(para));
        finalChunks := finalChunks + grouped;
      } else {
        finalChunks := finalChunks + [para];
      }
      assert paragraphs[..i + 1][..i] == paragraphs[..i];
    }
    assert paragraphs[..|paragraphs|] == paragraphs;
    if |finalChunks| <= 1 {
      finalChunks := Lines(text);
    }
    if finalChunks == [] {
      finalChunks := [text];
    }
    SegmentShape(text);
    SegmentKeepsContent(text);
  }

  /** The inner loop for a long paragraph: `current` grows sentence by sentence and
      is flushed into the result whenever the next sentence would take it to the
      budget. */
  method GroupSentences(sentences: seq<string>) returns (chunks: seq<string>)
    ensures chunks == Group(sentences, "")
    ensures Clean(chunks)
  {
    GroupClean(sentences, "");
    chunks := [];
    var current := "";
    for j := 0 to |sentences|
      invariant chunks + Group(sentences[j..], current) == Group(sentences, "")
    {
      assert sentences[j..][1..] == sentences[j + 1..];
      if |current + sentences[j]| < ChunkBudget {
        current := current + sentences[j] + " ";
      } else {
        if Strip(current) != [] {
          chunks := chunks + [Strip(current)];
        }
        current := sentences[j] + " ";
      }
    }
    if Strip(current) != [] {
      chunks := chunks + [Strip(current)];
    }
  }

  // ---- Shape of the result ----

  lemma {:induction false} JoinAllSpace(parts: seq<string>, sep: string)
    requires AllSpace(sep)
    ensures AllSpace(Join(parts, sep)) <==> forall k :: 0 <= k < |parts| ==> AllSpace(parts[k])
    decreases |parts|
  {
    if |parts| > 1 {
      JoinAllSpace(parts[1..], sep);
      var rest := Join(parts[1..], sep);
      var whole := parts[0] + sep + rest;
      if AllSpace(whole) {
        forall i | 0 <= i < |parts[0]| ensures IsSpace(parts[0][i]) {
          assert whole[i] == parts[0][i];
        }
        forall i | 0 <= i < |rest| ensures IsSpace(rest[i]) {
          assert whole[|parts[0]| + |sep| + i] == rest[i];
        }
        forall k | 0 < k < |parts| ensures AllSpace(parts[k]) {
          assert parts[k] == parts[1..][k - 1];
        }
      } else {
        var i :| 0 <= i < |whole| && !IsSpace(whole[i]);
        if i >= |parts[0]| + |sep| {
          assert rest[i - |parts[0]| - |sep|] == whole[i];
          var k :| 0 <= k < |parts[1..]| && !AllSpace(parts[1..][k]);
          assert parts[k + 1] == parts[1..][k];
        } else {
          assert whole[i] == parts[0][i];
        }
      }
    }
  }

  lemma {:induction false} StrippedPiecesEmpty(parts: seq<string>)
    ensures StrippedPieces(parts) == [] <==> forall k :: 0 <= k < |parts| ==> AllSpace(parts[k])
    decreases |parts|
  {
    if parts != [] {
      var init := parts[..|parts| - 1];
      var last := parts[|parts| - 1];
      StrippedPiecesEmpty(init);
      StripKeepsContent(last);
      assert StrippedPieces(parts) == StrippedPieces(init) + (if Strip(last) != [] then [Strip(last)] else []);
      if forall k :: 0 <= k < |parts| ==> AllSpace(parts[k]) {
        assert forall k :: 0 <= k < |init| ==> AllSpace(init[k]);
      } else {
        var k :| 0 <= k < |parts| && !AllSpace(parts[k]);
        if k < |init| {
          assert parts[k] == init[k];
        }
      }
    }
  }

  /** The pieces of a split are all blank exactly when the text is. */
  lemma SplitAllSpace(text: string, sep: string)
    requires |sep| > 0 && AllSpace(sep)
    ensures StrippedPieces(Split(text, sep)) == [] <==> AllSpace(text)
  {
    JoinSplit(text, sep);
    JoinAllSpace(Split(text, sep), sep);
    StrippedPiecesEmpty(Split(text, sep));
  }

  lemma {:induction false} GroupClean(sentences: seq<string>, current: string)
    ensures Clean(Group(sentences, current))
    decreases |sentences|
  {
    if sentences != [] {
      var s := sentences[0];
      var rest := sentences[1..];
      if |current + s| < ChunkBudget {
        GroupClean(rest, current + s + " ");
      } else {
        GroupClean(rest, s + " ");
        CleanAppend(Flush(current), Group(rest, s + " "));
      }
    }
  }

  lemma CleanAppend(a: seq<string>, b: seq<string>)
    requires Clean(a) && Clean(b)
    ensures Clean(a + b)
  {
    assert forall k :: 0 <= k < |a + b| ==> (a + b)[k] == (if k < |a| then a[k] else b[k - |a|]);
  }

  lemma {:induction false} ChunksClean(paras: seq<string>)
    requires Clean(paras)
    ensures Clean(ChunksOf(paras))
    decreases |paras|
  {
    if paras != [] {
      var last := paras[|paras| - 1];
      ChunksClean(paras[..|paras| - 1]);
      if |last| > LongParagraph {
        GroupClean(SentenceSplit(last), "");
      }
      CleanAppend(ChunksOf(paras[..|paras| - 1]), ParagraphChunks(last));
    }
  }

  /** The segmenter never returns an empty list. Its chunks are stripped and
      non-empty unless the text is blank, in which case the text itself is the one
      chunk. When paragraph splitting gives fewer than two chunks, the result is the
      text's non-blank lines, stripped. */
  lemma SegmentShape(text: string)
    ensures |Segment(text)| >= 1
    ensures AllSpace(text) ==> Segment(text) == [text]
    ensures !AllSpace(text) ==> Clean(Segment(text))
    ensures !AllSpace(text) && |ChunksOf(Paragraphs(text))| <= 1 ==> Segment(text) == Lines(text)
  {
    SplitAllSpace(text, ParagraphBreak);
    SplitAllSpace(text, LineBreak);
    ChunksClean(Paragraphs(text));
  }

  // ---- Bound on chunks cut from a long paragraph ----

  /** The state of `current_chunk` between two sentences: empty, or ending in the
      blank the loop appends, and either within the budget or one sentence alone. */
  ghost predicate CurrentOk(current: string, origin: seq<string>) {
    current == [] ||
    (current[|current| - 1] == ' ' &&
     (|current| <= ChunkBudget || exists k :: 0 <= k < |origin| && current == origin[k] + " "))
  }

  lemma FlushBound(current: string, origin: seq<string>)
    requires CurrentOk(current, origin)
    ensures forall c :: c in Flush(current) ==>
              |c| < ChunkBudget || exists k :: 0 <= k < |origin| && c == Strip(origin[k])
  {
    if current != [] {
      if |current| <= ChunkBudget {
        StripShortens(current);
      } else {
        var k :| 0 <= k < |origin| && current == origin[k] + " ";
        StripTrailingBlank(origin[k]);
      }
    }
  }

  lemma {:induction false} GroupBound(sentences: seq<string>, current: string, origin: seq<string>)
    requires CurrentOk(current, origin)
    requires forall i :: 0 <= i < |sentences| ==> sentences[i] in origin
    ensures forall c :: c in Group(sentences, current) ==>
              |c| < ChunkBudget || exists k :: 0 <= k < |origin| && c == Strip(origin[k])
    decreases |sentences|
  {
    FlushBound(current, origin);
    if sentences != [] {
      var s := sentences[0];
      assert s in origin;
      var k :| 0 <= k < |origin| && origin[k] == s;
      forall i | 0 <= i < |sentences[1..]| ensures sentences[1..][i] in origin {
        assert sentences[1..][i] == sentences[i + 1];
      }
      if |current + s| < ChunkBudget {
        GroupBound(sentences[1..], current + s + " ", origin);
      } else {
        GroupBound(sentences[1..], s + " ", origin);
      }
    }
  }

  lemma SentencePiecesStripped(para: string)
    requires Stripped(para)
    ensures forall k :: 0 <= k < |SentenceSplit(para)| ==> Stripped(SentenceSplit(para)[k])
  {
    var pieces := SentenceSplit(para);
    forall k | 0 <= k < |pieces| ensures Stripped(pieces[k]) {
      if pieces[k] != [] {
        if k == 0 {
          assert pieces[0][0] == para[0];
        }
        if k == |pieces| - 1 {
          SentenceSplitLast(para);
          assert pieces[k][|pieces[k]| - 1] == para[|para| - 1];
        }
      }
    }
  }

  lemma {:induction false} SentenceSplitLast(s: string)
    ensures var pieces := SentenceSplit(s);
            var last := pieces[|pieces| - 1];
            |last| <= |s| && last == s[|s| - |last|..]
    decreases |s|
  {
    match FirstBreak(s, 0)
    case None =>
    case Some(i) =>
      var j := SpaceRunEnd(s, i);
      SentenceSplitLast(s[j..]);
      assert SentenceSplit(s) == [s[..i]] + SentenceSplit(s[j..]);
  }

  /** A chunk cut from a paragraph over 1000 characters is under 800 characters
      unless it is a single sentence of that paragraph. */
  lemma LongParagraphChunks(para: string)
    requires Stripped(para) && |para| > LongParagraph
    ensures forall c :: c in ParagraphChunks(para) ==> |c| < ChunkBudget || c in SentenceSplit(para)
  {
    var pieces := SentenceSplit(para);
    GroupBound(pieces, "", pieces);
    SentencePiecesStripped(para);
    forall c | c in ParagraphChunks(para) && |c| >= ChunkBudget ensures c in pieces {
      var k :| 0 <= k < |pieces| && c == Strip(pieces[k]);
      StrippedFixed(pieces[k]);
    }
  }

  // ---- Content and order ----

  lemma FlushContent(current: string)
    ensures RemoveSpaces(Concat(Flush(current))) == RemoveSpaces(current)
  {
    StripKeepsContent(current);
    if Strip(current) != [] {
      assert Concat([Strip(current)]) == Strip(current) + Concat([]);
      assert Strip(current) + "" == Strip(current);
    } else {
      RemoveSpacesEmpty(current);
    }
  }

  /** The blank the loop appends after a sentence adds no content. */
  lemma BlankContent(a: string, s: string)
    ensures RemoveSpaces(a + s + " ") == RemoveSpaces(a) + RemoveSpaces(s)
  {
    RemoveSpacesAppend(a + s, " ");
    RemoveSpacesAppend(a, s);
    assert RemoveSpaces(" ") == [] by {
      RemoveSpacesEmpty(" ");
    }
    assert RemoveSpaces(a) + RemoveSpaces(s) + [] == RemoveSpaces(a) + RemoveSpaces(s);
  }

  lemma ConcatFirst(parts: seq<string>)
    requires parts != []
    ensures RemoveSpaces(Concat(parts)) == RemoveSpaces(parts[0]) + RemoveSpaces(Concat(parts[1..]))
  {
    RemoveSpacesAppend(parts[0], Concat(parts[1..]));
  }

  lemma FlushStep(current: string, s: string, b: seq<string>, restContent: string)
    requires RemoveSpaces(Concat(b)) == RemoveSpaces(s + " ") + restContent
    ensures RemoveSpaces(Concat(Flush(current) + b)) == RemoveSpaces(current) + (RemoveSpaces(s) + restContent)
  {
    var a := Flush(current);
    BlankContent("", s);
    assert "" + s == s;
    FlushContent(current);
    ConcatAppend(a, b);
    RemoveSpacesAppend(Concat(a), Concat(b));
  }

  lemma {:induction false} GroupContent(sentences: seq<string>, current: string)
    ensures RemoveSpaces(Concat(Group(sentences, current))) == RemoveSpaces(current) + RemoveSpaces(Concat(sentences))
    decreases |sentences|
  {
    if sentences == [] {
      FlushContent(current);
      assert RemoveSpaces(Concat(sentences)) == [];
    } else if |current + sentences[0]| < ChunkBudget {
      GroupContent(sentences[1..], current + sentences[0] + " ");
      GroupJoinStep(sentences, current);
    } else {
      GroupContent(sentences[1..], sentences[0] + " ");
      GroupFlushStep(sentences, current);
    }
  }

  /** The step of `GroupContent` where the sentence joins the current chunk. */
  lemma GroupJoinStep(sentences: seq<string>, current: string)
    requires sentences != [] && |current + sentences[0]| < ChunkBudget
    requires var next := current + sentences[0] + " ";
             RemoveSpaces(Concat(Group(sentences[1..], next))) == RemoveSpaces(next) + RemoveSpaces(Concat(sentences[1..]))
    ensures RemoveSpaces(Concat(Group(sentences, current))) == RemoveSpaces(current) + RemoveSpaces(Concat(sentences))
  {
    var s := sentences[0];
    ConcatFirst(sentences);
    BlankContent(current, s);
  }

  /** The step of `GroupContent` where the current chunk is flushed and the sentence
      starts the next one. */
  lemma GroupFlushStep(sentences: seq<string>, current: string)
    requires sentences != [] && |current + sentences[0]| >= ChunkBudget
    requires var next := sentences[0] + " ";
             RemoveSpaces(Concat(Group(sentences[1..], next))) == RemoveSpaces(next) + RemoveSpaces(Concat(sentences[1..]))
    ensures RemoveSpaces(Concat(Group(sentences, current))) == RemoveSpaces(current) + RemoveSpaces(Concat(sentences))
  {
    var s := sentences[0];
    var rest := sentences[1..];
    var restContent := RemoveSpaces(Concat(rest));
    ConcatFirst(sentences);
    var b := Group(rest, s + " ");
    assert Group(sentences, current) == Flush(current) + b;
    FlushStep(current, s, b, restContent);
  }

  lemma ParagraphContent(para: string)
    ensures RemoveSpaces(Concat(ParagraphChunks(para))) == RemoveSpaces(para)
  {
    if |para| > LongParagraph {
      GroupContent(SentenceSplit(para), "");
      SentenceSplitKeepsContent(para);
      assert RemoveSpaces("") == [];
    } else {
      SingleContent(para);
    }
  }

  lemma SingleContent(s: string)
    ensures Concat([s]) == s
  {
    assert Concat([s]) == s + Concat([]);
    assert s + "" == s;
  }

  /** Appending pieces with the same content to two lists keeps their contents equal. */
  lemma AppendContent(a: seq<string>, b: seq<string>, x: seq<string>, y: string)
    requires RemoveSpaces(Concat(a)) == RemoveSpaces(Concat(x))
    requires RemoveSpaces(Concat(b)) == RemoveSpaces(y)
    ensures RemoveSpaces(Concat(a + b)) == RemoveSpaces(Concat(x + [y]))
  {
    ConcatAppend(a, b);
    RemoveSpacesAppend(Concat(a), Concat(b));
    ConcatAppend(x, [y]);
    SingleContent(y);
    RemoveSpacesAppend(Concat(x), y);
  }

  lemma {:induction false} ChunksContent(paras: seq<string>)
    ensures RemoveSpaces(Concat(ChunksOf(paras))) == RemoveSpaces(Concat(paras))
    decreases |paras|
  {
    if paras != [] {
      var init := paras[..|paras| - 1];
      var last := paras[|paras| - 1];
      var a := ChunksOf(init);
      var b := ParagraphChunks(last);
      assert ChunksOf(paras) == a + b;
      assert RemoveSpaces(Concat(a + b)) == RemoveSpaces(Concat(init + [last])) by {
        ChunksContent(init);
        ParagraphContent(last);
        AppendContent(a, b, init, last);
      }
      assert paras == init + [last];
    }
  }

  /** One piece, stripped and dropped when blank, keeps its content. */
  lemma StrippedPieceContent(last: string)
    ensures RemoveSpaces(Concat(if Strip(last) != [] then [Strip(last)] else [])) == RemoveSpaces(last)
  {
    StripKeepsContent(last);
    if Strip(last) != [] {
      SingleContent(Strip(last));
    } else {
      RemoveSpacesEmpty(last);
    }
  }

  lemma {:induction false} StrippedPiecesContent(parts: seq<string>)
    ensures RemoveSpaces(Concat(StrippedPieces(parts))) == RemoveSpaces(Concat(parts))
    decreases |parts|
  {
    if parts != [] {
      var init := parts[..|parts| - 1];
      var last := parts[|parts| - 1];
      var tail := if Strip(last) != [] then [Strip(last)] else [];
      assert StrippedPieces(parts) == StrippedPieces(init) + tail;
      assert parts == init + [last];
      assert RemoveSpaces(Concat(StrippedPieces(init) + tail)) == RemoveSpaces(Concat(init + [last])) by {
        StrippedPiecesContent(init);
        StrippedPieceContent(last);
        AppendContent(StrippedPieces(init), tail, init, last);
      }
    }
  }

  /** Splitting at a white-space separator and stripping the pieces keeps the
      content of the text. */
  lemma PiecesContent(text: string, sep: string)
    requires |sep| > 0 && AllSpace(sep)
    ensures RemoveSpaces(Concat(StrippedPieces(Split(text, sep)))) == RemoveSpaces(text)
  {
    StrippedPiecesContent(Split(text, sep));
    JoinSplit(text, sep);
    JoinKeepsContent(Split(text, sep), sep);
  }

  /** Segmenting drops white space and nothing else: the chunks, laid end to end,
      hold every other character of the text in its original order. */
  lemma SegmentKeepsContent(text: string)
    ensures RemoveSpaces(Concat(Segment(text))) == RemoveSpaces(text)
  {
    var chunks := ChunksOf(Paragraphs(text));
    if |chunks| <= 1 {
      if Lines(text) == [] {
        SingleContent(text);
      } else {
        PiecesContent(text, LineBreak);
      }
    } else {
      ChunksContent(Paragraphs(text));
      PiecesContent(text, ParagraphBreak);
    }
  }

  // ---- Short paragraphs ----

  lemma {:induction false} ShortParagraphsUnchanged(paras: seq<string>)
    requires forall k :: 0 <= k < |paras| ==> |paras[k]| <= LongParagraph
    ensures ChunksOf(paras) == paras
    decreases |paras|
  {
    if paras != [] {
      ShortParagraphsUnchanged(paras[..|paras| - 1]);
      assert paras == paras[..|paras| - 1] + [paras[|paras| - 1]];
    }
  }

  /** Text made of at least two paragraphs of at most 1000 characters is cut into
      exactly those paragraphs, each stripped and otherwise unchanged. */
  lemma ShortParagraphsKept(text: string)
    requires |Paragraphs(text)| >= 2
    requires forall k :: 0 <= k < |Paragraphs(text)| ==> |Paragraphs(text)[k]| <= LongParagraph
    ensures Segment(text) == Paragraphs(text)
  {
    ShortParagraphsUnchanged(Paragraphs(text));
  }
}
