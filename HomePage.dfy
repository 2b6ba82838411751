/** The home page's bio (src/pages/HomePage.tsx): the text is split into
    paragraphs at blank lines, and each paragraph is scanned for Markdown-style
    `[caption](url)` links with the pattern `\[([^\]]+)\]\(([^)]+)\)`. */
module HomePage {
  import opened Wrappers
  import opened Strings
  import opened Blog
  import opened LanguageContext
  import opened PostSearch

  // ---------------------------------------------------------------------------
  // One match of the link pattern

  /** A link the pattern found: where it starts, its caption and its URL. */
  datatype Match = Match(index: nat, caption: string, url: string)
  {
    /** `match[0].length`: "[" caption "](" url ")". */
    function Length(): nat { |caption| + |url| + 4 }
  }

  /** `"[" + caption + "](" + url + ")"`, the text a match covers. */
  function LinkSource(caption: string, url: string): string {
    "[" + caption + "](" + url + ")"
  }

  /** `t` has no occurrence of `c`. */
  predicate Lacks(t: string, c: char) {
    forall n :: 0 <= n < |t| ==> t[n] != c
  }

  /** What the pattern accepts at position `i` of `s`: a non-empty caption
      without `]` and a non-empty URL without `)`. */
  ghost predicate IsLinkAt(s: string, i: nat, caption: string, url: string) {
    && caption != [] && Lacks(caption, ']')
    && url != [] && Lacks(url, ')')
    && i + |LinkSource(caption, url)| <= |s|
    && s[i..i + |LinkSource(caption, url)|] == LinkSource(caption, url)
  }

  /** The first position at or after `from` holding `c`, or `|s|`. */
  function FindChar(s: string, c: char, from: nat): (k: nat)
    requires from <= |s|
    ensures from <= k <= |s|
    ensures k < |s| ==> s[k] == c
    ensures forall j :: from <= j < k ==> s[j] != c
    decreases |s| - from
  {
    if from == |s| || s[from] == c then from else FindChar(s, c, from + 1)
  }

  /** The pattern tried at position `i` alone. Neither character class
      contains its closing character, so each group ends at the first `]`
      (respectively `)`) and there is nothing to backtrack into. */
  function MatchAt(s: string, i: nat): (r: Option<Match>)
    ensures r.Some? ==> r.value.index == i && i + r.value.Length() <= |s|
  {
    if i >= |s| || s[i] != '[' then None
    else
      var j := FindChar(s, ']', i + 1);
      if j == i + 1 || j + 1 >= |s| || s[j + 1] != '(' then None
      else
        var k := FindChar(s, ')', j + 2);
        if k == j + 2 || k == |s| then None
        else Some(Match(i, s[i + 1..j], s[j + 2..k]))
  }

  /** The link text laid out in `s` from `i` to `k`, with `]` at `j`. */
  predicate LaidOut(s: string, i: nat, j: nat, k: nat) {
    i < j && j + 1 < k < |s| && s[i] == '[' && s[j] == ']' && s[j + 1] == '(' && s[k] == ')'
  }

  lemma LaidOutIsLinkSource(s: string, i: nat, j: nat, k: nat)
    requires LaidOut(s, i, j, k)
    ensures s[i..k + 1] == LinkSource(s[i + 1..j], s[j + 2..k])
  {
    assert s[i..k + 1] == [s[i]] + s[i + 1..j] + [s[j], s[j + 1]] + s[j + 2..k] + [s[k]];
  }

  lemma LinkSourceIsLaidOut(s: string, i: nat, caption: string, url: string)
    requires i + |LinkSource(caption, url)| <= |s|
    requires s[i..i + |LinkSource(caption, url)|] == LinkSource(caption, url)
    ensures var j, k := i + 1 + |caption|, i + 3 + |caption| + |url|;
            LaidOut(s, i, j, k) && s[i + 1..j] == caption && s[j + 2..k] == url
  {
    var src := LinkSource(caption, url);
    var j, k := i + 1 + |caption|, i + 3 + |caption| + |url|;
    assert forall n :: 0 <= n < |src| ==> s[i + n] == src[n] by {
      forall n | 0 <= n < |src| ensures s[i + n] == src[n] {
        assert s[i..i + |src|][n] == s[i + n];
      }
    }
    assert s[i + 1..j] == caption by {
      forall n | 0 <= n < |caption| ensures s[i + 1..j][n] == caption[n] {
        assert s[i + (1 + n)] == src[1 + n];
      }
    }
    assert s[j + 2..k] == url by {
      forall n | 0 <= n < |url| ensures s[j + 2..k][n] == url[n] {
        assert s[i + (|caption| + 3 + n)] == src[|caption| + 3 + n];
      }
    }
    assert s[i + 0] == src[0] && s[i + (j - i)] == src[j - i] && s[i + (j + 1 - i)] == src[j + 1 - i];
    assert s[i + (k - i)] == src[k - i];
  }

  /** Whatever `MatchAt` reports is a match of the pattern. */
  lemma MatchAtSound(s: string, i: nat)
    requires MatchAt(s, i).Some?
    ensures IsLinkAt(s, i, MatchAt(s, i).value.caption, MatchAt(s, i).value.url)
  {
    var j := FindChar(s, ']', i + 1);
    var k := FindChar(s, ')', j + 2);
    var caption, url := s[i + 1..j], s[j + 2..k];
    assert MatchAt(s, i).value == Match(i, caption, url);
    assert LaidOut(s, i, j, k);
    LaidOutIsLinkSource(s, i, j, k);
    assert Lacks(caption, ']') by {
      forall n | 0 <= n < |caption| ensures caption[n] != ']' {
        assert caption[n] == s[i + 1 + n];
      }
    }
    assert Lacks(url, ')') by {
      forall n | 0 <= n < |url| ensures url[n] != ')' {
        assert url[n] == s[j + 2 + n];
      }
    }
  }

  /** The pattern can match at a position in only one way, and `MatchAt`
      finds it. */
  lemma MatchAtComplete(s: string, i: nat, caption: string, url: string)
    requires IsLinkAt(s, i, caption, url)
    ensures MatchAt(s, i) == Some(Match(i, caption, url))
  {
    var j := i + 1 + |caption|;
    var k := j + 2 + |url|;
    LinkSourceIsLaidOut(s, i, caption, url);
    forall n | i + 1 <= n < j ensures s[n] != ']' {
      assert s[i + 1..j][n - i - 1] == s[n];
    }
    FindCharAt(s, ']', i + 1, j);
    forall n | j + 2 <= n < k ensures s[n] != ')' {
      assert s[j + 2..k][n - j - 2] == s[n];
    }
    FindCharAt(s, ')', j + 2, k);
  }

  lemma {:induction false} FindCharAt(s: string, c: char, from: nat, k: nat)
    requires from <= k < |s| && s[k] == c
    requires forall n :: from <= n < k ==> s[n] != c
    ensures FindChar(s, c, from) == k
    decreases k - from
  {
    if from < k {
      FindCharAt(s, c, from + 1, k);
    }
  }

  /** `linkRe.exec(text)` with `lastIndex` at `from`: the leftmost match at or
      after `from`. */
  function NextMatch(s: string, from: nat): (r: Option<Match>)
    ensures r.Some? ==> from <= r.value.index && r.value.index + r.value.Length() <= |s|
    decreases |s| - from
  {
    if from >= |s| then None
    else if MatchAt(s, from).Some? then MatchAt(s, from)
    else NextMatch(s, from + 1)
  }

  /** `NextMatch` finds the leftmost match at or after `from`. */
  lemma {:induction false} NextMatchLeftmost(s: string, from: nat)
    ensures var r := NextMatch(s, from);
            && (r.Some? ==> MatchAt(s, r.value.index) == r)
            && forall k :: from <= k && (r.None? || k < r.value.index) ==> MatchAt(s, k).None?
    decreases |s| - from
  {
    if from < |s| && MatchAt(s, from).None? {
      NextMatchLeftmost(s, from + 1);
    }
  }

  // ---------------------------------------------------------------------------
  // The scanner

  /** One entry of `parts`: a plain text slice or a link element. */
  datatype Part = Text(text: string) | Link(caption: string, url: string)

  /** The parts the scanner produces from position `from` on: the text up to
      each match, then the link, and after the last match the rest. */
  function Segments(s: string, from: nat): (r: seq<Part>)
    requires from <= |s|
    decreases |s| - from
  {
    match NextMatch(s, from)
    case None => [Text(s[from..])]
    case Some(m) => [Text(s[from..m.index]), Link(m.caption, m.url)] + Segments(s, m.index + m.Length())
  }

  /** One step of the scan: a match at or after `from` contributes the text
      before it and the link, and the scan resumes after it. */
  lemma SegmentsStep(s: string, from: nat)
    requires from <= |s| && NextMatch(s, from).Some?
    ensures var m := NextMatch(s, from).value;
            && m.index + m.Length() <= |s|
            && Segments(s, from) == [Text(s[from..m.index]), Link(m.caption, m.url)] + Segments(s, m.index + m.Length())
  {
  }

  /** The two parts a match emits: the text before it and the link. */
  function Emitted(s: string, from: nat, m: Match): seq<Part>
    requires from <= m.index <= |s|
  {
    [Text(s[from..m.index]), Link(m.caption, m.url)]
  }

  /** The loop's step keeps `parts` followed by what is left to scan equal
      to the whole scan. */
  lemma ScanStep(s: string, from: nat, m: Match, parts: seq<Part>, whole: seq<Part>)
    requires from <= |s| && NextMatch(s, from) == Some(m)
    requires parts + Segments(s, from) == whole
    ensures from <= m.index < m.index + m.Length() <= |s|
    ensures (parts + Emitted(s, from, m)) + Segments(s, m.index + m.Length()) == whole
  {
    var rest := Segments(s, m.index + m.Length());
    SegmentsStep(s, from);
    assert parts + (Emitted(s, from, m) + rest) == (parts + Emitted(s, from, m)) + rest;
  }

  /** `renderBioParagraph`. */
  method RenderBioParagraph(text: string) returns (parts: seq<Part>)
    ensures parts == Segments(text, 0)
  {
    parts := [];
    var lastIndex := 0;
    var m := NextMatch(text, lastIndex);
    ghost var whole := Segments(text, 0);
    while m.Some?
      invariant lastIndex <= |text|
      invariant m == NextMatch(text, lastIndex)
      invariant parts + Segments(text, lastIndex) == whole
      decreases |text| - lastIndex
    {
      var found := m.value;
      ScanStep(text, lastIndex, found, parts, whole);
      parts := parts + Emitted(text, lastIndex, found);
      lastIndex := found.index + found.Length();
      m := NextMatch(text, lastIndex);
    }
    assert Segments(text, lastIndex) == [Text(text[lastIndex..])];
    parts := parts + [Text(text[lastIndex..])];
  }

  /** Putting the parts back together, each link as its source text. */
  function Reconstruct(parts: seq<Part>): string {
    if parts == [] then ""
    else
      (match parts[0]
       case Text(t) => t
       case Link(l, u) => LinkSource(l, u)) + Reconstruct(parts[1..])
  }

  lemma {:induction false} ReconstructAppend(a: seq<Part>, b: seq<Part>)
    ensures Reconstruct(a + b) == Reconstruct(a) + Reconstruct(b)
  {
    if a == [] {
      assert a + b == b;
    } else {
      assert (a + b)[1..] == a[1..] + b;
      ReconstructAppend(a[1..], b);
    }
  }

  /** The parts reconstruct the paragraph exactly. */
  lemma {:induction false} SegmentsReconstruct(s: string, from: nat)
    requires from <= |s|
    ensures Reconstruct(Segments(s, from)) == s[from..]
    decreases |s| - from
  {
    if NextMatch(s, from).None? {
      assert Reconstruct([Text(s[from..])]) == s[from..] + Reconstruct([]);
    } else {
      var m, e, rest := SegmentsUnfold(s, from);
      var head := [Text(s[from..m.index]), Link(m.caption, m.url)];
      assert Reconstruct(head + rest) == s[from..m.index] + LinkSource(m.caption, m.url) + s[e..] by {
        SegmentsReconstruct(s, e);
        ReconstructAppend(head, rest);
        assert head[1..] == [Link(m.caption, m.url)];
        assert Reconstruct([Link(m.caption, m.url)]) == LinkSource(m.caption, m.url) + Reconstruct([]);
      }
      SliceThree(s, from, m.index, e);
    }
  }

  lemma SliceThree(s: string, a: nat, b: nat, c: nat)
    requires a <= b <= c <= |s|
    ensures s[a..] == s[a..b] + s[b..c] + s[c..]
  {
  }

  /** Text and link parts alternate, starting and ending with text. */
  ghost predicate Alternates(parts: seq<Part>) {
    |parts| % 2 == 1 && forall i :: 0 <= i < |parts| ==> (parts[i].Text? <==> i % 2 == 0)
  }

  function CountLinks(parts: seq<Part>): nat {
    if parts == [] then 0 else (if parts[0].Link? then 1 else 0) + CountLinks(parts[1..])
  }

  function CountTexts(parts: seq<Part>): nat {
    if parts == [] then 0 else (if parts[0].Text? then 1 else 0) + CountTexts(parts[1..])
  }

  /** Every link the scanner emits has a non-empty caption without `]` and a
      non-empty URL without `)`. */
  ghost predicate WellFormedLinks(parts: seq<Part>) {
    forall i :: 0 <= i < |parts| && parts[i].Link? ==>
      && parts[i].caption != [] && Lacks(parts[i].caption, ']')
      && parts[i].url != [] && Lacks(parts[i].url, ')')
  }

  /** The step of the scan as plain facts: the parts after `from` are the
      text before the next match, its link, and the parts after it; the
      link is one the pattern accepts. */
  lemma SegmentsUnfold(s: string, from: nat) returns (m: Match, e: nat, rest: seq<Part>)
    requires from <= |s| && NextMatch(s, from).Some?
    ensures m == NextMatch(s, from).value && e == m.index + m.Length()
    ensures from <= m.index < e <= |s|
    ensures rest == Segments(s, e)
    ensures Segments(s, from) == [Text(s[from..m.index]), Link(m.caption, m.url)] + rest
    ensures IsLinkAt(s, m.index, m.caption, m.url)
  {
    m := NextMatch(s, from).value;
    e := m.index + m.Length();
    rest := Segments(s, e);
    SegmentsStep(s, from);
    NextMatchLeftmost(s, from);
    MatchAtSound(s, m.index);
  }

  /** Text and link parts alternate, starting and ending with text. */
  lemma {:induction false} SegmentsAlternate(s: string, from: nat)
    requires from <= |s|
    ensures Alternates(Segments(s, from))
    decreases |s| - from
  {
    var r := Segments(s, from);
    if NextMatch(s, from).None? {
      assert r == [Text(s[from..])];
    } else {
      var m, e, rest := SegmentsUnfold(s, from);
      SegmentsAlternate(s, e);
      AlternatesCons(Text(s[from..m.index]), Link(m.caption, m.url), rest);
    }
  }

  lemma AlternatesCons(t: Part, l: Part, rest: seq<Part>)
    requires t.Text? && l.Link? && Alternates(rest)
    ensures Alternates([t, l] + rest)
  {
    var r := [t, l] + rest;
    forall i | 2 <= i < |r| ensures r[i] == rest[i - 2] && (i - 2) % 2 == i % 2 {
    }
  }

  /** There is one more text part than link parts. */
  lemma {:induction false} SegmentsCount(s: string, from: nat)
    requires from <= |s|
    ensures CountTexts(Segments(s, from)) == CountLinks(Segments(s, from)) + 1
    decreases |s| - from
  {
    var r := Segments(s, from);
    if NextMatch(s, from).None? {
      assert r == [Text(s[from..])];
      assert r[1..] == [];
    } else {
      var m, e, rest := SegmentsUnfold(s, from);
      SegmentsCount(s, e);
      assert r[1..][1..] == rest;
      assert CountTexts(r[1..]) == CountTexts(rest) && CountLinks(r[1..]) == 1 + CountLinks(rest);
    }
  }

  /** Every link part is one the pattern accepts. */
  lemma {:induction false} SegmentsLinksWellFormed(s: string, from: nat)
    requires from <= |s|
    ensures WellFormedLinks(Segments(s, from))
    decreases |s| - from
  {
    var r := Segments(s, from);
    if NextMatch(s, from).Some? {
      var m, e, rest := SegmentsUnfold(s, from);
      SegmentsLinksWellFormed(s, e);
      forall i | 2 <= i < |r| ensures r[i] == rest[i - 2] {
      }
    }
  }

  /** Where part `i` begins in the paragraph. */
  function StartOf(parts: seq<Part>, from: nat, i: nat): nat
    requires i <= |parts|
  {
    from + |Reconstruct(parts[..i])|
  }

  /** Part `i` sits where the pattern says it should: a link exactly where
      the pattern matches, a text with no match starting inside it. */
  ghost predicate Placed(s: string, parts: seq<Part>, from: nat, i: nat)
    requires i < |parts|
  {
    var at := StartOf(parts, from, i);
    match parts[i]
    case Link(caption, url) => MatchAt(s, at) == Some(Match(at, caption, url))
    case Text(t) => forall k :: at <= k < at + |t| ==> MatchAt(s, k).None?
  }

  /** Behind a text part and a link part of known total length, start
      positions shift by that length. */
  lemma StartOfShift(head: seq<Part>, rest: seq<Part>, from: nat, e: nat, i: nat)
    requires |head| <= i <= |head| + |rest|
    requires from + |Reconstruct(head)| == e
    ensures StartOf(head + rest, from, i) == StartOf(rest, e, i - |head|)
  {
    assert (head + rest)[..i] == head + rest[..i - |head|];
    ReconstructAppend(head, rest[..i - |head|]);
  }

  /** The matches are leftmost and in order: each link part sits exactly where
      the pattern matches, and no match starts inside a text part. */
  lemma {:induction false} SegmentsLeftmost(s: string, from: nat)
    requires from <= |s|
    ensures var r := Segments(s, from);
            forall i :: 0 <= i < |r| ==> Placed(s, r, from, i)
    decreases |s| - from
  {
    var r := Segments(s, from);
    NextMatchLeftmost(s, from);
    if NextMatch(s, from).None? {
      assert r == [Text(s[from..])];
      assert StartOf(r, from, 0) == from by { assert r[..0] == []; }
    } else {
      var m, e, rest := SegmentsUnfold(s, from);
      SegmentsLeftmost(s, e);
      PlacedCons(s, from, m, e, rest);
    }
  }

  /** A text part free of matches, then a match, in front of placed parts. */
  lemma PlacedCons(s: string, from: nat, m: Match, e: nat, rest: seq<Part>)
    requires from <= m.index && MatchAt(s, m.index) == Some(m) && e == m.index + m.Length()
    requires forall k :: from <= k < m.index ==> MatchAt(s, k).None?
    requires forall i :: 0 <= i < |rest| ==> Placed(s, rest, e, i)
    ensures m.index <= |s|
    ensures var r := [Text(s[from..m.index]), Link(m.caption, m.url)] + rest;
            forall i :: 0 <= i < |r| ==> Placed(s, r, from, i)
  {
    var head := [Text(s[from..m.index]), Link(m.caption, m.url)];
    var r := head + rest;
    assert |Reconstruct(head)| == e - from by {
      assert head[1..] == [Link(m.caption, m.url)];
      assert Reconstruct([Link(m.caption, m.url)]) == LinkSource(m.caption, m.url) + Reconstruct([]);
    }
    forall i | 0 <= i < |r| ensures Placed(s, r, from, i) {
      if i == 0 {
        assert StartOf(r, from, 0) == from by { assert r[..0] == []; }
      } else if i == 1 {
        assert StartOf(r, from, 1) == m.index by {
          assert r[..1] == [Text(s[from..m.index])];
          assert Reconstruct(r[..1]) == s[from..m.index] + Reconstruct([]);
        }
      } else {
        StartOfShift(head, rest, from, e, i);
        assert r[i] == rest[i - 2];
        assert Placed(s, rest, e, i - 2);
      }
    }
  }

  /** A paragraph without any link is one text part, the whole paragraph. */
  lemma NoLinkSingleSegment(s: string)
    requires forall k :: 0 <= k < |s| ==> MatchAt(s, k).None?
    ensures Segments(s, 0) == [Text(s)]
  {
    NextMatchLeftmost(s, 0);
    assert s[0..] == s;
  }

  // ---------------------------------------------------------------------------
  // Paragraphs

  /** `text.split(/\n\n+/)`: the pieces between maximal runs of two or more
      newlines. */
  function SplitBlankLines(s: string): (r: seq<string>)
    ensures |r| >= 1 && r[0] <= s
    decreases |s|
  {
    var i := FindBlankLine(s, 0);
    if i == |s| then [s]
    else
      var j := NewlineRunEnd(s, i);
      [s[..i]] + SplitBlankLines(s[j..])
  }

  /** Two newlines start at position `n`. */
  predicate BlankLineAt(s: string, n: int) {
    0 <= n && n + 1 < |s| && s[n] == '\n' && s[n + 1] == '\n'
  }

  /** The first position at or after `from` starting two newlines, or `|s|`. */
  function FindBlankLine(s: string, from: nat): (k: nat)
    requires from <= |s|
    ensures from <= k <= |s|
    ensures k < |s| ==> BlankLineAt(s, k)
    ensures forall n :: from <= n < k ==> !BlankLineAt(s, n)
    decreases |s| - from
  {
    if from + 1 >= |s| then |s|
    else if BlankLineAt(s, from) then from
    else FindBlankLine(s, from + 1)
  }

  /** The end of the run of newlines starting at `i`. */
  function NewlineRunEnd(s: string, i: nat): (j: nat)
    requires i <= |s|
    ensures i <= j <= |s|
    ensures forall n :: i <= n < j ==> s[n] == '\n'
    ensures j == |s| || s[j] != '\n'
    decreases |s| - i
  {
    if i < |s| && s[i] == '\n' then NewlineRunEnd(s, i + 1) else i
  }

  /** No two consecutive newlines. */
  predicate NoBlankLine(p: string) {
    forall n :: 0 <= n < |p| ==> !BlankLineAt(p, n)
  }

  /** A separator the split consumed: two or more newlines. */
  predicate IsBlankRun(sep: string) {
    |sep| >= 2 && forall n :: 0 <= n < |sep| ==> sep[n] == '\n'
  }

  /** Pieces and separators interleaved. */
  function Interleave(pieces: seq<string>, seps: seq<string>): string
    requires |seps| + 1 == |pieces|
  {
    if |seps| == 0 then pieces[0] else pieces[0] + seps[0] + Interleave(pieces[1..], seps[1..])
  }

  predicate EndsWithNewline(p: string) {
    p != [] && p[|p| - 1] == '\n'
  }

  predicate StartsWithNewline(p: string) {
    p != [] && p[0] == '\n'
  }

  /** What a split at maximal runs of blank lines leaves: one more piece than
      separators, every separator a run of two or more newlines, no piece
      holding a blank line, no newline on either side of a separator, and no
      empty piece between two separators. */
  ghost predicate WellSplit(pieces: seq<string>, seps: seq<string>) {
    && |seps| + 1 == |pieces|
    && (forall k :: 0 <= k < |seps| ==> IsBlankRun(seps[k]))
    && (forall k :: 0 <= k < |pieces| ==> NoBlankLine(pieces[k]))
    && (forall k :: 0 <= k < |seps| ==> !EndsWithNewline(pieces[k]))
    && (forall k :: 1 <= k < |pieces| ==> !StartsWithNewline(pieces[k]))
    && (forall k :: 1 <= k < |seps| ==> pieces[k] != [])
  }

  /** The split loses nothing: the input is its pieces joined by runs of two
      or more newlines, no piece holds a blank line, and a piece next to a
      separator does not end or begin with a newline (runs are maximal). */
  lemma {:induction false} SplitRoundTrip(s: string) returns (seps: seq<string>)
    ensures WellSplit(SplitBlankLines(s), seps)
    ensures Interleave(SplitBlankLines(s), seps) == s
    decreases |s|
  {
    if FindBlankLine(s, 0) == |s| {
      seps := [];
      assert SplitBlankLines(s) == [s];
    } else {
      var first, sep, tail := SplitUnfold(s);
      var more := SplitRoundTrip(tail);
      var rest := SplitBlankLines(tail);
      seps := [sep] + more;
      WellSplitCons(first, sep, rest, more);
    }
  }

  /** A first piece and separator in front of a well-formed split. */
  lemma WellSplitCons(first: string, sep: string, rest: seq<string>, more: seq<string>)
    requires WellSplit(rest, more)
    requires IsBlankRun(sep) && NoBlankLine(first) && !EndsWithNewline(first)
    requires !StartsWithNewline(rest[0])
    requires |rest| > 1 ==> rest[0] != []
    ensures WellSplit([first] + rest, [sep] + more)
    ensures Interleave([first] + rest, [sep] + more) == first + sep + Interleave(rest, more)
  {
    var pieces, seps := [first] + rest, [sep] + more;
    assert pieces[1..] == rest && seps[1..] == more;
    forall k | 1 <= k < |pieces| ensures pieces[k] == rest[k - 1] {
    }
    forall k | 1 <= k < |seps| ensures seps[k] == more[k - 1] {
    }
  }

  /** The first step of the split, as plain facts: the piece before the first
      blank line, the newline run after it, and the text after that run,
      which the rest of the split works on. */
  lemma SplitUnfold(s: string) returns (first: string, sep: string, tail: string)
    requires FindBlankLine(s, 0) < |s|
    ensures s == first + sep + tail && |tail| < |s|
    ensures SplitBlankLines(s) == [first] + SplitBlankLines(tail)
    ensures NoBlankLine(first) && !EndsWithNewline(first)
    ensures IsBlankRun(sep)
    ensures !StartsWithNewline(SplitBlankLines(tail)[0])
    ensures |SplitBlankLines(tail)| > 1 ==> SplitBlankLines(tail)[0] != []
  {
    var i := FindBlankLine(s, 0);
    var j := NewlineRunEnd(s, i);
    first, sep, tail := s[..i], s[i..j], s[j..];
    FirstPieceAndSeparator(s, i, j);
    SliceThree(s, 0, i, j);
    assert s[0..] == s;
    var head := SplitBlankLines(tail)[0];
    if head != [] {
      assert head[0] == tail[0] == s[j];
    }
  }

  /** The piece before the first blank line has none and does not end in a
      newline, and the newline run after it is a separator. */
  lemma FirstPieceAndSeparator(s: string, i: nat, j: nat)
    requires i == FindBlankLine(s, 0) < |s| && j == NewlineRunEnd(s, i)
    ensures NoBlankLine(s[..i]) && (i == 0 || s[..i][i - 1] != '\n')
    ensures IsBlankRun(s[i..j])
  {
    forall n | 0 <= n < i ensures !BlankLineAt(s[..i], n) {
      assert BlankLineAt(s[..i], n) ==> BlankLineAt(s, n);
    }
    if i > 0 && s[i - 1] == '\n' {
      assert BlankLineAt(s, i - 1);
      assert false;
    }
    assert s[i + 1] == '\n';
  }

  /** Every piece trimmed, in order. */
  function TrimAll(pieces: seq<string>): seq<string> {
    seq(|pieces|, i requires 0 <= i < |pieces| => Trim(pieces[i]))
  }

  lemma TrimAllTail(pieces: seq<string>)
    requires pieces != []
    ensures TrimAll(pieces)[1..] == TrimAll(pieces[1..])
  {
    forall i | 0 <= i < |pieces| - 1 ensures TrimAll(pieces)[1..][i] == TrimAll(pieces[1..])[i] {
      assert pieces[1..][i] == pieces[i + 1];
    }
  }

  /** `.filter(p => p.trim())` then `.trim()` on each: the paragraphs are the
      trimmed pieces, in order, with the blank ones dropped and every other
      one kept as often as it occurs. */
  function TidyParagraphs(pieces: seq<string>): (r: seq<string>)
    ensures forall p :: p in r ==> p != [] && !IsSpace(p[0]) && !IsSpace(p[|p| - 1])
    ensures IsSubsequence(r, TrimAll(pieces))
    ensures forall p :: p in TrimAll(pieces) && p != [] ==> p in r
    ensures multiset(r) == multiset(TrimAll(pieces))[[] := 0]
  {
    if pieces == [] then []
    else
      var rest := TidyParagraphs(pieces[1..]);
      var t := Trim(pieces[0]);
      var r := if t == [] then rest else [t] + rest;
      TrimAllTail(pieces);
      KeepNonEmptyCons(TrimAll(pieces), rest, r);
      r
  }

  /** Keeping the non-empty strings of a list, one element at a time: the
      head, unless empty, goes in front of what was kept of the tail. */
  lemma KeepNonEmptyCons(all: seq<string>, rest: seq<string>, r: seq<string>)
    requires all != []
    requires IsSubsequence(rest, all[1..])
    requires forall p :: p in all[1..] && p != [] ==> p in rest
    requires multiset(rest) == multiset(all[1..])[[] := 0]
    requires r == if all[0] == [] then rest else [all[0]] + rest
    ensures IsSubsequence(r, all)
    ensures forall p :: p in all && p != [] ==> p in r
    ensures multiset(r) == multiset(all)[[] := 0]
  {
    assert all == [all[0]] + all[1..];
    assert multiset(all) == multiset{all[0]} + multiset(all[1..]);
    if all[0] != [] {
      assert r[1..] == rest;
    }
  }

  /** The paragraphs of the bio. */
  function Paragraphs(bio: string): seq<string> {
    TidyParagraphs(SplitBlankLines(bio))
  }

  /** `t('bio') || ''`. */
  function BioText(table: Translations, language: Language): string {
    Lookup(table, language, "bio")
  }

  /** A bio without blank lines and without surrounding white space is one
      paragraph, the bio itself. */
  lemma OneParagraph(s: string)
    requires s != [] && NoBlankLine(s) && !IsSpace(s[0]) && !IsSpace(s[|s| - 1])
    ensures Paragraphs(s) == [s]
  {
    assert FindBlankLine(s, 0) == |s|;
    assert SplitBlankLines(s) == [s];
    assert Trim(s) == s by {
      assert TrimStart(s) == s;
      assert TrimEnd(s) == s;
    }
    assert [s][1..] == [];
  }

  /** Until the API supplies a bio, the page shows one paragraph reading
      `bio`. */
  lemma InitialBioIsItsKey(language: Language)
    ensures Paragraphs(BioText(InitialTranslations, language)) == ["bio"]
  {
    NoInitialBio(language);
    OneParagraph("bio");
  }
}
