/**
 * The string primitives the core is built from, over ASCII text: Python's
 * `str.isspace`, `str.lower`, `str.strip`, `str.split(sep)`, `sep.join`, the `in`
 * substring test, and `re.split(r'(?<=[.!?])\s+', s)`, the sentence splitter that
 * both the segmenter and the navigation cleaner use.
 */
module Text {
  import opened Optional

  /** The ASCII characters for which `str.isspace()` holds and which the regex class
      `\s` matches: tab, line feed, vertical tab, form feed, carriage return, the
      separators 0x1C-0x1F, and space. */
  predicate IsSpace(c: char) {
    (9 <= c as int <= 13) || (28 <= c as int <= 32)
  }

  predicate AllSpace(s: string) {
    forall i :: 0 <= i < |s| ==> IsSpace(s[i])
  }

  /** The characters of `s` that are not white space, in order: what a split or a
      strip must never lose. */
  function RemoveSpaces(s: string): string {
    if s == [] then []
    else RemoveSpaces(s[..|s| - 1]) + (if IsSpace(s[|s| - 1]) then [] else [s[|s| - 1]])
  }

  lemma {:induction false} RemoveSpacesAppend(a: string, b: string)
    ensures RemoveSpaces(a + b) == RemoveSpaces(a) + RemoveSpaces(b)
    decreases |b|
  {
    if b != [] {
      var b' := b[..|b| - 1];
      assert (a + b)[..|a + b| - 1] == a + b';
      RemoveSpacesAppend(a, b');
    } else {
      assert a + b == a;
    }
  }

  lemma {:induction false} RemoveSpacesEmpty(s: string)
    ensures RemoveSpaces(s) == [] <==> AllSpace(s)
    decreases |s|
  {
    if s != [] {
      RemoveSpacesEmpty(s[..|s| - 1]);
      if !AllSpace(s[..|s| - 1]) {
        var i :| 0 <= i < |s| - 1 && !IsSpace(s[..|s| - 1][i]);
        assert !IsSpace(s[i]);
      }
    }
  }

  /** Python's `str.lower()` on ASCII letters. */
  function LowerChar(c: char): char {
    if 'A' <= c <= 'Z' then (c as int + 32) as char else c
  }

  function Lower(s: string): string {
    seq(|s|, i requires 0 <= i < |s| => LowerChar(s[i]))
  }

  /** Case-folding twice is folding once: what makes a lower-cased comparison
      insensitive to the case of its input. */
  lemma LowerIdempotent(s: string)
    ensures Lower(Lower(s)) == Lower(s)
  {
    assert forall i :: 0 <= i < |s| ==> LowerChar(LowerChar(s[i])) == LowerChar(s[i]);
  }

  function TrimLeft(s: string): string {
    if s != [] && IsSpace(s[0]) then TrimLeft(s[1..]) else s
  }

  function TrimRight(s: string): string {
    if s != [] && IsSpace(s[|s| - 1]) then TrimRight(s[..|s| - 1]) else s
  }

  /** `TrimLeft` removes a prefix of white space and stops at the first other
      character. */
  lemma {:induction false} TrimLeftFacts(s: string)
    ensures |TrimLeft(s)| <= |s| && TrimLeft(s) == s[|s| - |TrimLeft(s)|..]
    ensures AllSpace(s[..|s| - |TrimLeft(s)|])
    ensures TrimLeft(s) == [] || !IsSpace(TrimLeft(s)[0])
    decreases |s|
  {
    if s != [] && IsSpace(s[0]) {
      TrimLeftFacts(s[1..]);
      var r := TrimLeft(s);
      assert s[..|s| - |r|] == [s[0]] + s[1..][..|s| - 1 - |r|];
    }
  }

  /** `TrimRight` removes a suffix of white space and stops at the last other
      character. */
  lemma {:induction false} TrimRightFacts(s: string)
    ensures |TrimRight(s)| <= |s| && TrimRight(s) == s[..|TrimRight(s)|]
    ensures AllSpace(s[|TrimRight(s)|..])
    ensures TrimRight(s) == [] || !IsSpace(TrimRight(s)[|TrimRight(s)| - 1])
    decreases |s|
  {
    if s != [] && IsSpace(s[|s| - 1]) {
      TrimRightFacts(s[..|s| - 1]);
      var r := TrimRight(s);
      assert s[|r|..] == s[..|s| - 1][|r|..] + [s[|s| - 1]];
    }
  }

  /** Neither end is white space: what `str.strip()` leaves. */
  predicate Stripped(s: string) {
    s == [] || (!IsSpace(s[0]) && !IsSpace(s[|s| - 1]))
  }

  /** Python's `s.strip()`. */
  function Strip(s: string): (r: string)
    ensures Stripped(r) && |r| <= |s|
  {
    TrimLeftFacts(s);
    TrimRightFacts(TrimLeft(s));
    TrimRight(TrimLeft(s))
  }

  /** `strip()` removes white space at the two ends only: what it returns is a
      stretch of `s` with nothing but white space before and after it. */
  lemma StripRemovesEnds(s: string)
    ensures exists i :: 0 <= i <= |s| - |Strip(s)| && Strip(s) == s[i..i + |Strip(s)|]
                        && AllSpace(s[..i]) && AllSpace(s[i + |Strip(s)|..])
  {
    TrimLeftFacts(s);
    var l := TrimLeft(s);
    TrimRightFacts(l);
    var i := |s| - |l|;
    var r := Strip(s);
    assert r == s[i..i + |r|];
    assert s[i + |r|..] == l[|r|..];
  }

  lemma StrippedFixed(s: string)
    requires Stripped(s)
    ensures Strip(s) == s
  {
  }

  lemma TrimLeftKeepsContent(s: string)
    ensures RemoveSpaces(TrimLeft(s)) == RemoveSpaces(s)
  {
    TrimLeftFacts(s);
    var l := TrimLeft(s);
    var pre := s[..|s| - |l|];
    assert s == pre + l;
    RemoveSpacesAppend(pre, l);
    RemoveSpacesEmpty(pre);
  }

  lemma TrimRightKeepsContent(s: string)
    ensures RemoveSpaces(TrimRight(s)) == RemoveSpaces(s)
  {
    TrimRightFacts(s);
    var r := TrimRight(s);
    var post := s[|r|..];
    assert s == r + post;
    RemoveSpacesAppend(r, post);
    RemoveSpacesEmpty(post);
  }

  /** Stripping removes white space only: the text that is not white space survives. */
  lemma StripKeepsContent(s: string)
    ensures RemoveSpaces(Strip(s)) == RemoveSpaces(s)
    ensures Strip(s) == [] <==> AllSpace(s)
  {
    TrimLeftKeepsContent(s);
    TrimRightKeepsContent(TrimLeft(s));
    RemoveSpacesEmpty(Strip(s));
    RemoveSpacesEmpty(s);
  }

  /** A trailing blank does not change what `strip` returns. */
  lemma StripTrailingBlank(s: string)
    ensures Strip(s + " ") == Strip(s)
  {
    var l := TrimLeft(s);
    if l == [] {
      StripTrailingBlankOfSpaces(s);
    } else {
      TrimLeftAppend(s, " ");
      TrimRightDropsBlank(l);
    }
  }

  lemma StripTrailingBlankOfSpaces(s: string)
    requires TrimLeft(s) == []
    ensures Strip(s + " ") == [] == Strip(s)
  {
    TrimLeftFacts(s);
    assert s[..|s|] == s;
    assert AllSpace(s + " ");
    TrimLeftAllSpace(s + " ");
  }

  lemma TrimRightDropsBlank(l: string)
    ensures TrimRight(l + " ") == TrimRight(l)
  {
    assert (l + " ")[..|l + " "| - 1] == l;
  }

  lemma {:induction false} TrimLeftAllSpace(s: string)
    requires AllSpace(s)
    ensures TrimLeft(s) == []
    decreases |s|
  {
    if s != [] {
      TrimLeftAllSpace(s[1..]);
    }
  }

  lemma {:induction false} TrimLeftAppend(s: string, t: string)
    requires TrimLeft(s) != []
    ensures TrimLeft(s + t) == TrimLeft(s) + t
    decreases |s|
  {
    if s != [] && IsSpace(s[0]) {
      assert (s + t)[1..] == s[1..] + t;
      TrimLeftAppend(s[1..], t);
    }
  }

  /** The string ends with a blank, so stripping it makes it strictly shorter. */
  lemma StripShortens(s: string)
    requires s != [] && IsSpace(s[|s| - 1])
    ensures |Strip(s)| < |s|
  {
    TrimLeftFacts(s);
    var l := TrimLeft(s);
    if l != [] {
      assert l[|l| - 1] == s[|s| - 1];
      TrimRightFacts(l[..|l| - 1]);
    }
  }

  /** `sub` occurs in `s` at position `i`. */
  predicate Occurs(s: string, sub: string, i: int) {
    0 <= i && i + |sub| <= |s| && s[i..i + |sub|] == sub
  }

  /** Python's `sub in s`. */
  predicate Contains(s: string, sub: string) {
    exists i | 0 <= i <= |s| - |sub| :: Occurs(s, sub, i)
  }

  /** The first position at or after `from` where `sub` occurs in `s`. */
  function FindFrom(s: string, sub: string, from: nat): (r: Option<nat>)
    requires |sub| > 0
    decreases |s| - from
    ensures r.Some? ==> from <= r.value && Occurs(s, sub, r.value)
    ensures forall i :: from <= i && (r.None? || i < r.value) ==> !Occurs(s, sub, i)
  {
    if from + |sub| > |s| then None
    else if s[from..from + |sub|] == sub then Some(from)
    else FindFrom(s, sub, from + 1)
  }

  /** Python's `s.split(sep)` for a non-empty separator: the pieces between
      successive leftmost non-overlapping occurrences of `sep`. */
  function Split(s: string, sep: string): (parts: seq<string>)
    requires |sep| > 0
    decreases |s|
    ensures |parts| >= 1
  {
    match FindFrom(s, sep, 0)
    case None => [s]
    case Some(i) => [s[..i]] + Split(s[i + |sep|..], sep)
  }

  /** No piece of a split still holds the separator. */
  lemma {:induction false} SplitPiecesClean(s: string, sep: string)
    requires |sep| > 0
    ensures forall k :: 0 <= k < |Split(s, sep)| ==> !Contains(Split(s, sep)[k], sep)
    decreases |s|
  {
    match FindFrom(s, sep, 0)
    case None =>
    case Some(i) =>
      var t := s[i + |sep|..];
      SplitPiecesClean(t, sep);
      assert Split(s, sep) == [s[..i]] + Split(t, sep);
      assert !Contains(s[..i], sep) by {
        forall j | 0 <= j <= i - |sep| ensures !Occurs(s[..i], sep, j) {
          assert !Occurs(s, sep, j);
          assert s[..i][j..j + |sep|] == s[j..j + |sep|];
        }
      }
  }

  /** Python's `sep.join(parts)`. */
  function Join(parts: seq<string>, sep: string): string {
    if parts == [] then ""
    else if |parts| == 1 then parts[0]
    else parts[0] + sep + Join(parts[1..], sep)
  }

  /** Splitting and joining back with the same separator gives the original text. */
  lemma {:induction false} JoinSplit(s: string, sep: string)
    requires |sep| > 0
    ensures Join(Split(s, sep), sep) == s
    decreases |s|
  {
    match FindFrom(s, sep, 0)
    case None =>
    case Some(i) =>
      var t := s[i + |sep|..];
      var rest := Split(t, sep);
      JoinSplit(t, sep);
      assert Split(s, sep) == [s[..i]] + rest;
      assert ([s[..i]] + rest)[1..] == rest;
      assert Join(Split(s, sep), sep) == s[..i] + sep + Join(rest, sep);
      assert s[i..i + |sep|] == sep;
      assert s == s[..i] + s[i..i + |sep|] + t;
  }

  /** The pieces laid end to end. */
  function Concat(parts: seq<string>): string {
    if parts == [] then "" else parts[0] + Concat(parts[1..])
  }

  lemma {:induction false} ConcatAppend(a: seq<string>, b: seq<string>)
    ensures Concat(a + b) == Concat(a) + Concat(b)
    decreases |a|
  {
    if a != [] {
      assert (a + b)[1..] == a[1..] + b;
      ConcatAppend(a[1..], b);
    } else {
      assert a + b == b;
    }
  }

  /** Joining with a white-space separator adds nothing but white space. */
  lemma {:induction false} JoinKeepsContent(parts: seq<string>, sep: string)
    requires AllSpace(sep)
    ensures RemoveSpaces(Join(parts, sep)) == RemoveSpaces(Concat(parts))
    decreases |parts|
  {
    if |parts| == 1 {
      assert parts[1..] == [];
      assert Concat(parts) == parts[0] + "";
      assert parts[0] + "" == parts[0];
    } else if |parts| > 1 {
      JoinKeepsContent(parts[1..], sep);
      RemoveSpacesAppend(parts[0] + sep, Join(parts[1..], sep));
      RemoveSpacesAppend(parts[0], sep);
      RemoveSpacesEmpty(sep);
      RemoveSpacesAppend(parts[0], Concat(parts[1..]));
    }
  }

  /** `.`, `!` or `?`: the characters the sentence splitter's look-behind accepts. */
  predicate IsTerminator(c: char) {
    c == '.' || c == '!' || c == '?'
  }

  /** `(?<=[.!?])\s+` can match starting at position `i` of `s`. */
  predicate BreakAt(s: string, i: int) {
    0 < i < |s| && IsTerminator(s[i - 1]) && IsSpace(s[i])
  }

  /** The leftmost position at or after `from` where the sentence pattern matches. */
  function FirstBreak(s: string, from: nat): (r: Option<nat>)
    decreases |s| - from
    ensures r.Some? ==> from <= r.value && BreakAt(s, r.value)
    ensures forall i :: from <= i && (r.None? || i < r.value) ==> !BreakAt(s, i)
  {
    if from >= |s| then None
    else if BreakAt(s, from) then Some(from)
    else FirstBreak(s, from + 1)
  }

  /** Where the greedy `\s+` starting at `i` stops. */
  function SpaceRunEnd(s: string, i: nat): (j: nat)
    requires i <= |s|
    decreases |s| - i
    ensures i <= j <= |s| && AllSpace(s[i..j])
    ensures j == |s| || !IsSpace(s[j])
  {
    if i < |s| && IsSpace(s[i]) then SpaceRunEnd(s, i + 1) else i
  }

  /** Python's `re.split(r'(?<=[.!?])\s+', s)`: `s` cut at every run of white space
      that follows a `.`, `!` or `?`, the runs themselves dropped. */
  function SentenceSplit(s: string): (pieces: seq<string>)
    decreases |s|
    ensures |pieces| >= 1
    ensures |pieces[0]| <= |s| && pieces[0] == s[..|pieces[0]|]
    ensures forall k :: 0 <= k < |pieces| - 1 ==> pieces[k] != [] && IsTerminator(pieces[k][|pieces[k]| - 1])
    ensures forall k :: 0 < k < |pieces| ==> pieces[k] == [] || !IsSpace(pieces[k][0])
    ensures forall k, i :: 0 <= k < |pieces| ==> !BreakAt(pieces[k], i)
  {
    match FirstBreak(s, 0)
    case None =>
      [s]
    case Some(i) =>
      var j := SpaceRunEnd(s, i);
      var rest := SentenceSplit(s[j..]);
      assert forall b :: !BreakAt(s[..i], b) by {
        forall b | BreakAt(s[..i], b) ensures false {
          assert BreakAt(s, b);
        }
      }
      [s[..i]] + rest
  }

  /** The splitter drops white space only: the rest of the text survives, in order. */
  lemma {:induction false} SentenceSplitKeepsContent(s: string)
    ensures RemoveSpaces(Concat(SentenceSplit(s))) == RemoveSpaces(s)
    decreases |s|
  {
    match FirstBreak(s, 0)
    case None =>
      assert [s][1..] == [];
      assert Concat([s]) == s + "";
      assert s + "" == s;
    case Some(i) =>
      var j := SpaceRunEnd(s, i);
      SentenceSplitKeepsContent(s[j..]);
      var pieces := SentenceSplit(s);
      assert pieces == [s[..i]] + SentenceSplit(s[j..]);
      assert pieces[1..] == SentenceSplit(s[j..]);
      assert s == s[..i] + s[i..j] + s[j..];
      RemoveSpacesAppend(s[..i] + s[i..j], s[j..]);
      RemoveSpacesAppend(s[..i], s[i..j]);
      RemoveSpacesEmpty(s[i..j]);
      RemoveSpacesAppend(s[..i], Concat(pieces[1..]));
  }
}
