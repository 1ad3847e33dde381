/** The free-text parser of the word-document generator, as functions: how
    generated text is cut into numbered sections and subsections, and which
    paragraphs each piece becomes. The regular expressions are modelled by what
    they match, including the backtracking of `\s+` against `[^\n]+`. */
module Sections {
  import opened Wrappers
  import opened Text
  import opened Docx

  /** The two heading levels: `N. Title` and `N.M Title`. */
  datatype Level = Section | Subsection

  /** Length of the heading number at the start of `s`: what `\d+\.` (Section)
      or `\d+\.\d+` (Subsection) matches there. */
  function NumberLength(s: string, lv: Level): (r: Option<nat>)
    ensures r.Some? ==> 2 <= r.value <= |s| && IsDigit(s[0])
    ensures r.Some? ==> forall i :: 0 <= i < r.value ==> !IsSpace(s[i])
  {
    var d := DigitRun(s);
    if d == 0 || d == |s| || s[d] != '.' then None
    else if lv == Section then Some(d + 1)
    else
      var e := DigitRun(s[d + 1..]);
      if e == 0 then None else Some(d + 1 + e)
  }

  /** `\d+\.\s+[A-Z]` (Section) or `\d+\.\d+\s+[A-Z]` (Subsection) matches at the start of `s`. */
  predicate StartsHeading(s: string, lv: Level)
  {
    match NumberLength(s, lv)
    case None => false
    case Some(n) => var w := SpaceRun(s[n..]); w >= 1 && n + w < |s| && IsUpper(s[n + w])
  }

  /** Index of the capital letter that completes the heading pattern. */
  function HeadingEnd(s: string, lv: Level): (k: nat)
    requires StartsHeading(s, lv)
    ensures NumberLength(s, lv).value < k < |s| && IsUpper(s[k])
  {
    var n := NumberLength(s, lv).value;
    n + SpaceRun(s[n..])
  }

  /** What `\s+[^\n]+` matches at the start of `t`, as a length. */
  function WsThenLine(t: string): (r: Option<nat>)
    ensures r.Some? ==> 2 <= r.value <= |t|
  {
    Backtrack(t, SpaceRun(t))
  }

  /** The match of `\s+[^\n]+` when `\s+` may take at most `k` characters: `\s+`
      gives back characters until `[^\n]+` can start on one that is not a newline,
      and `[^\n]+` then runs to the end of that line. */
  function Backtrack(t: string, k: nat): (r: Option<nat>)
    requires k <= |t|
    ensures r.Some? ==> 2 <= r.value <= |t|
    decreases k
  {
    if k == 0 then None
    else if k < |t| && t[k] != '\n' then Some(k + LineRun(t[k..]))
    else Backtrack(t, k - 1)
  }

  /** Group 1 of `re.match(r'(\d+\.\s+[^\n]+)', s)` (Section) or of
      `re.match(r'(\d+\.\d+\s+[^\n]+)', s)` (Subsection); once stripped it is a
      non-empty prefix of `s` that still opens with the heading number. */
  function HeadingLine(s: string, lv: Level): (r: Option<string>)
    ensures r.Some? ==> r.value <= s && NumberLength(s, lv).Some?
  {
    match NumberLength(s, lv)
    case None => None
    case Some(n) =>
      match WsThenLine(s[n..])
      case None => None
      case Some(m) => Some(s[..n + m])
  }

  /** The heading match is a prefix of the text that reaches past the heading number. */
  lemma HeadingTitle(s: string, lv: Level, h: string)
    requires HeadingLine(s, lv) == Some(h)
    ensures h <= s && NumberLength(s, lv).Some? && NumberLength(s, lv).value < |h|
  {
    var n := NumberLength(s, lv).value;
    var m := WsThenLine(s[n..]).value;
    assert h == s[..n + m];
  }

  /** Stripping a prefix that reaches past the heading number leaves a non-empty
      prefix of the text with the same heading number. */
  lemma StrippedHeading(s: string, lv: Level, k: nat)
    requires NumberLength(s, lv).Some? && NumberLength(s, lv).value < k <= |s|
    ensures var t := Strip(s[..k]); t != [] && t <= s && NumberLength(t, lv) == NumberLength(s, lv)
  {
    var m := s[..k];
    var n := NumberLength(s, lv).value;
    var t := Strip(m);
    assert SpaceRun(m) == 0 by { assert m[0] == s[0]; }
    assert t == m[..|t|];
    AllSpaceFrom(m, |t|);
    assert !IsSpace(m[n - 1]);
    NumberPrefix(s, lv, |t|);
    assert s[..|t|] == t;
  }

  // ----- how heading patterns depend on the text around them -----

  /** Cutting `s` after its heading number leaves the number unchanged. */
  lemma NumberPrefix(s: string, lv: Level, k: nat)
    requires NumberLength(s, lv).Some? && NumberLength(s, lv).value <= k <= |s|
    ensures NumberLength(s[..k], lv) == NumberLength(s, lv)
  {
    var d := DigitRun(s);
    RunPrefix(IsDigit, s, k);
    assert s[..k][d] == s[d];
    if lv == Subsection {
      SecondNumberPrefix(s, d + 1, k);
    }
  }

  /** The digits after the dot are kept by a cut past them. */
  lemma SecondNumberPrefix(s: string, k: nat, m: nat)
    requires k <= m <= |s| && DigitRun(s[k..]) <= m - k
    ensures DigitRun(s[..m][k..]) == DigitRun(s[k..])
  {
    assert s[..m][k..] == s[k..][..m - k];
    RunPrefix(IsDigit, s[k..], m - k);
  }

  /** A heading number only depends on the characters up to the one after it. */
  lemma NumberAgree(s: string, t: string, lv: Level, n: nat)
    requires NumberLength(s, lv).Some? && NumberLength(s, lv).value < n <= |s|
    requires n <= |t| && s[..n] == t[..n]
    ensures NumberLength(t, lv) == NumberLength(s, lv)
  {
    var d := DigitRun(s);
    RunAgree(IsDigit, s, t, n);
    assert s[d] == s[..n][d] == t[..n][d] == t[d];
    if lv == Subsection {
      RunAgreeFrom(IsDigit, s, t, d + 1, n);
    }
    SameNumber(s, t, lv);
  }

  /** The heading number is read from the leading digits, the character after them
      and, for a subsection, the digits after that. */
  lemma SameNumber(s: string, t: string, lv: Level)
    requires DigitRun(s) == DigitRun(t) < |s| && DigitRun(t) < |t|
    requires s[DigitRun(s)] == t[DigitRun(t)]
    requires lv == Subsection ==> DigitRun(s[DigitRun(s) + 1..]) == DigitRun(t[DigitRun(t) + 1..])
    ensures NumberLength(t, lv) == NumberLength(s, lv)
  {
  }

  /** A heading pattern only depends on the characters up to its capital letter. */
  lemma HeadingAgree(s: string, t: string, lv: Level, n: nat)
    requires StartsHeading(s, lv) && HeadingEnd(s, lv) < n <= |s|
    requires n <= |t| && s[..n] == t[..n]
    ensures StartsHeading(t, lv) && HeadingEnd(t, lv) == HeadingEnd(s, lv)
  {
    var k := NumberLength(s, lv).value;
    NumberAgree(s, t, lv, n);
    RunAgreeFrom(IsSpace, s, t, k, n);
    var e := HeadingEnd(s, lv);
    assert s[e] == s[..n][e] == t[..n][e] == t[e];
  }

  // ----- re.split at heading boundaries -----

  /** The separator `\n\s*` that starts at `s[j]` ends at this index. */
  function SeparatorEnd(s: string, j: nat): (k: nat)
    requires j < |s|
    ensures j < k <= |s|
  {
    j + 1 + SpaceRun(s[j + 1..])
  }

  /** `\n\s*(?=<heading>)` matches at index `j`. */
  predicate IsBoundary(s: string, j: nat, lv: Level)
    requires j < |s|
  {
    s[j] == '\n' && StartsHeading(s[SeparatorEnd(s, j)..], lv)
  }

  /** The first boundary at or after `from`, or `|s|` when there is none. */
  function NextBoundary(s: string, lv: Level, from: nat): (j: nat)
    requires from <= |s|
    ensures from <= j <= |s|
    decreases |s| - from
  {
    if from == |s| then |s|
    else if IsBoundary(s, from, lv) then from
    else NextBoundary(s, lv, from + 1)
  }

  /** The boundary found is one. */
  lemma {:induction false} NextBoundaryFound(s: string, lv: Level, from: nat)
    requires from <= |s|
    ensures NextBoundary(s, lv, from) < |s| ==> IsBoundary(s, NextBoundary(s, lv, from), lv)
    decreases |s| - from
  {
    if from < |s| && !IsBoundary(s, from, lv) {
      NextBoundaryFound(s, lv, from + 1);
    }
  }

  /** No boundary lies between `from` and the one found: it is the first. */
  lemma NextBoundaryFirst(s: string, lv: Level, from: nat)
    requires from <= |s|
    ensures forall k :: from <= k < NextBoundary(s, lv, from) ==> !IsBoundary(s, k, lv)
  {
    forall k | from <= k < NextBoundary(s, lv, from)
      ensures !IsBoundary(s, k, lv)
    {
      SearchSkips(s, lv, from, k);
      SearchStep(s, lv, k);
    }
  }

  /** The search from `from` passes every position up to the boundary it finds. */
  lemma {:induction false} SearchSkips(s: string, lv: Level, from: nat, k: nat)
    requires from <= |s| && from <= k <= NextBoundary(s, lv, from)
    ensures NextBoundary(s, lv, k) == NextBoundary(s, lv, from)
    decreases k - from
  {
    if from < k {
      SearchStep(s, lv, from);
      SearchSkips(s, lv, from + 1, k);
    }
  }

  /** One step of the search: stop at a boundary, move on otherwise. */
  lemma SearchStep(s: string, lv: Level, from: nat)
    requires from < |s|
    ensures IsBoundary(s, from, lv) ==> NextBoundary(s, lv, from) == from
    ensures !IsBoundary(s, from, lv) ==> NextBoundary(s, lv, from) == NextBoundary(s, lv, from + 1)
  {
  }

  /** `re.split(r'\n\s*(?=\d+\.\s+[A-Z])', s)` (Section) or
      `re.split(r'\n\s*(?=\d+\.\d+\s+[A-Z])', s)` (Subsection). */
  function SplitAtHeadings(s: string, lv: Level): (r: seq<string>)
    ensures |r| >= 1
    decreases |s|
  {
    var j := NextBoundary(s, lv, 0);
    if j == |s| then [s] else [s[..j]] + SplitAtHeadings(s[SeparatorEnd(s, j)..], lv)
  }

  // ----- the paragraphs the parser emits -----

  /** What the parser may put in the body: a non-empty paragraph without
      leading or trailing whitespace, in the `Normal` style or as a heading whose
      text opens with a number of its level. */
  predicate Clean(e: Element)
  {
    && e.Para?
    && e.text != [] && IsStripped(e.text)
    && match e.style
       case Normal => true
       case Heading1 => NumberLength(e.text, Section).Some?
       case Heading2 => NumberLength(e.text, Subsection).Some?
       case ListBullet => false
  }

  /** The stripped heading line of a piece that opens with a heading is a clean heading
      of its level. */
  lemma HeadingClean(s: string, lv: Level)
    requires HeadingLine(s, lv).Some?
    ensures Clean(Para(if lv == Section then Heading1 else Heading2, Strip(HeadingLine(s, lv).value)))
  {
    var h := HeadingLine(s, lv).value;
    HeadingTitle(s, lv, h);
    StrippedHeading(s, lv, |h|);
    assert s[..|h|] == h;
  }

  /** `if line.strip(): doc.add_paragraph(line.strip())`. */
  function LinePara(line: string): (r: seq<Element>)
    ensures forall e :: e in r ==> Clean(e) && e.style == Normal
  {
    if Strip(line) != [] then [Para(Normal, Strip(line))] else []
  }

  /** The paragraphs of the non-blank lines among `lines`, in order. */
  function LineParas(lines: seq<string>): (r: seq<Element>)
    ensures forall e :: e in r ==> Clean(e) && e.style == Normal
    decreases |lines|
  {
    if lines == [] then [] else LineParas(lines[..|lines| - 1]) + LinePara(lines[|lines| - 1])
  }

  /** One more line adds that line's paragraph, if any. */
  lemma LineParasSnoc(lines: seq<string>, i: nat)
    requires i < |lines|
    ensures LineParas(lines[..i + 1]) == LineParas(lines[..i]) + LinePara(lines[i])
  {
    assert lines[..i + 1][..i] == lines[..i];
  }

  /** `for line in text.split('\n')`, one paragraph per non-blank line. */
  function Paragraphs(text: string): (r: seq<Element>)
    ensures forall e :: e in r ==> Clean(e) && e.style == Normal
  {
    LineParas(SplitOn(text, '\n'))
  }

  /** One piece of a section body: a `Heading 2` and its lines when it opens
      with `\d+\.\d+\s+[^\n]+`, plain paragraphs otherwise. */
  function SubsectionElements(sub: string): (r: seq<Element>)
    ensures forall e :: e in r ==> Clean(e)
  {
    match HeadingLine(sub, Subsection)
    case None => Paragraphs(sub)
    case Some(m) =>
      var subtitle := Strip(m);
      var subcontent := Strip(sub[|subtitle|..]);
      HeadingClean(sub, Subsection);
      [Para(Heading2, subtitle)] + (if subcontent != [] then Paragraphs(subcontent) else [])
  }

  /** The elements of the pieces `subs`, in order. */
  function SubsectionsOf(subs: seq<string>): (r: seq<Element>)
    ensures forall e :: e in r ==> Clean(e)
    decreases |subs|
  {
    if subs == [] then [] else SubsectionsOf(subs[..|subs| - 1]) + SubsectionElements(subs[|subs| - 1])
  }

  /** One more piece adds that piece's elements. */
  lemma SubsectionsOfSnoc(subs: seq<string>, k: nat)
    requires k < |subs|
    ensures SubsectionsOf(subs[..k + 1]) == SubsectionsOf(subs[..k]) + SubsectionElements(subs[k])
  {
    assert subs[..k + 1][..k] == subs[..k];
  }

  /** The text under a section heading, cut at its subsection headings. */
  function SectionBody(body: string): (r: seq<Element>)
    ensures forall e :: e in r ==> Clean(e)
  {
    SubsectionsOf(SplitAtHeadings(body, Subsection))
  }

  /** `sections.index(section)`: the first position holding an equal string. */
  function IndexOf(xs: seq<string>, x: string): (i: nat)
    ensures i <= |xs| && (i < |xs| ==> xs[i] == x)
    ensures forall k :: 0 <= k < i ==> xs[k] != x
    decreases |xs|
  {
    if xs == [] || xs[0] == x then 0 else 1 + IndexOf(xs[1..], x)
  }

  /** One top-level chunk: preamble lines when it is the first chunk and does not
      open with a heading once stripped; otherwise a `Heading 1` and its body when
      it opens with `\d+\.\s+[^\n]+`, and plain paragraphs when it does not. */
  function ChunkElements(sections: seq<string>, section: string): (r: seq<Element>)
  {
    if IndexOf(sections, section) == 0 && !StartsHeading(Strip(section), Section) then
      Paragraphs(section)
    else
      match HeadingLine(section, Section)
      case None => Paragraphs(section)
      case Some(m) =>
        var title := Strip(m);
        var content := Strip(section[|title|..]);
        HeadingClean(section, Section);
        [Para(Heading1, title)] + (if content != [] then SectionBody(content) else [])
  }

  /** The parts, concatenated in order. */
  function Flatten(parts: seq<seq<Element>>): seq<Element>
    decreases |parts|
  {
    if parts == [] then [] else Flatten(parts[..|parts| - 1]) + parts[|parts| - 1]
  }

  /** One more part adds that part's elements. */
  lemma FlattenSnoc(parts: seq<seq<Element>>, i: nat)
    requires i < |parts|
    ensures Flatten(parts[..i + 1]) == Flatten(parts[..i]) + parts[i]
  {
    assert parts[..i + 1][..i] == parts[..i];
  }

  /** A property of every part that survives concatenation holds of them all together. */
  lemma {:induction false} FlattenKeeps(parts: seq<seq<Element>>, p: seq<Element> -> bool)
    requires p([])
    requires forall a, b {:trigger p(a + b)} :: p(a) && p(b) ==> p(a + b)
    requires forall k :: 0 <= k < |parts| ==> p(parts[k])
    ensures p(Flatten(parts))
    decreases |parts|
  {
    if parts != [] {
      var init := parts[..|parts| - 1];
      FlattenKeeps(init, p);
      assert p(Flatten(init) + parts[|parts| - 1]);
    }
  }

  /** The elements of each chunk, chunk by chunk. */
  function ChunkParts(sections: seq<string>): (r: seq<seq<Element>>)
    ensures |r| == |sections|
  {
    seq(|sections|, i requires 0 <= i < |sections| => ChunkElements(sections, sections[i]))
  }

  /** The elements of the first `n` chunks. */
  function ChunksOf(sections: seq<string>, n: nat): (r: seq<Element>)
    requires n <= |sections|
  {
    Flatten(ChunkParts(sections)[..n])
  }

  /** One more chunk adds that chunk's elements. */
  lemma ChunksOfSnoc(sections: seq<string>, i: nat)
    requires i < |sections|
    ensures ChunksOf(sections, i + 1) == ChunksOf(sections, i) + ChunkElements(sections, sections[i])
  {
    FlattenSnoc(ChunkParts(sections), i);
  }

  /** What `_add_general_content` appends to the document for `content`. */
  function GeneralContent(content: string): seq<Element>
  {
    var sections := SplitAtHeadings(content, Section);
    ChunksOf(sections, |sections|)
  }

  /** A chunk that opens with its heading: the heading, then its subsections. */
  lemma HeadedChunk(sections: seq<string>, section: string, title: string, body: string)
    requires !(IndexOf(sections, section) == 0 && !StartsHeading(Strip(section), Section))
    requires HeadingLine(section, Section).Some?
    requires title == Strip(HeadingLine(section, Section).value)
    requires body == Strip(section[|title|..])
    ensures ChunkElements(sections, section) == [Para(Heading1, title)] + (if body != [] then SectionBody(body) else [])
  {
  }

  /** A leading chunk that does not open with a heading once stripped, or any chunk
      that does not open with a heading line: its lines. */
  lemma UnheadedChunk(sections: seq<string>, section: string)
    requires (IndexOf(sections, section) == 0 && !StartsHeading(Strip(section), Section))
             || HeadingLine(section, Section).None?
    ensures ChunkElements(sections, section) == Paragraphs(section)
  {
  }

  /** A subsection that opens with its heading: the heading, then the lines after it. */
  lemma HeadedSubsection(sub: string, subtitle: string, subcontent: string)
    requires HeadingLine(sub, Subsection).Some?
    requires subtitle == Strip(HeadingLine(sub, Subsection).value)
    requires subcontent == Strip(sub[|subtitle|..])
    ensures SubsectionElements(sub) == [Para(Heading2, subtitle)] + (if subcontent != [] then Paragraphs(subcontent) else [])
  {
  }

  /** A subsection that does not open with a heading: its lines. */
  lemma UnheadedSubsection(sub: string)
    requires HeadingLine(sub, Subsection).None?
    ensures SubsectionElements(sub) == Paragraphs(sub)
  {
  }

  /** Every element of one chunk is clean, whichever branch produced it. */
  lemma ChunkClean(sections: seq<string>, section: string)
    ensures forall e :: e in ChunkElements(sections, section) ==> Clean(e)
  {
    if (IndexOf(sections, section) == 0 && !StartsHeading(Strip(section), Section))
       || HeadingLine(section, Section).None? {
      UnheadedChunk(sections, section);
    } else {
      var title := Strip(HeadingLine(section, Section).value);
      var body := Strip(section[|title|..]);
      HeadedChunk(sections, section, title, body);
      HeadingClean(section, Section);
    }
  }

  /** Every element `_add_general_content` appends is a non-empty stripped
      paragraph, and every heading opens with a number of its level. */
  lemma ContentClean(content: string)
    ensures forall e :: e in GeneralContent(content) ==> Clean(e)
  {
    var sections := SplitAtHeadings(content, Section);
    var parts := ChunkParts(sections);
    forall k | 0 <= k < |parts| ensures forall e :: e in parts[k] ==> Clean(e) {
      ChunkClean(sections, sections[k]);
    }
    assert parts[..|sections|] == parts;
    FlattenKeeps(parts, es => forall e :: e in es ==> Clean(e));
  }

  // ----- only whitespace is dropped -----

  /** The texts of the paragraphs, concatenated in order. */
  function TextOf(es: seq<Element>): string
    decreases |es|
  {
    if es == [] then [] else TextOf(es[..|es| - 1]) + (if es[|es| - 1].Para? then es[|es| - 1].text else [])
  }

  lemma {:induction false} TextOfAppend(a: seq<Element>, b: seq<Element>)
    ensures TextOf(a + b) == TextOf(a) + TextOf(b)
    decreases |b|
  {
    if b == [] {
      assert a + b == a;
    } else {
      var init := b[..|b| - 1];
      assert (a + b)[..|a + b| - 1] == a + init;
      TextOfAppend(a, init);
    }
  }

  lemma LineParaKeepsText(line: string)
    ensures NoSpace(TextOf(LinePara(line))) == NoSpace(line)
  {
    if Strip(line) != [] {
      var e := Para(Normal, Strip(line));
      assert LinePara(line) == [e];
      assert [e][..0] == [];
      assert TextOf([e]) == Strip(line);
      NoSpaceStrip(line);
    } else {
      NoSpaceOfSpace(line);
    }
  }

  lemma {:induction false} LineParasKeepText(lines: seq<string>)
    ensures NoSpace(TextOf(LineParas(lines))) == NoSpaceAll(lines)
    decreases |lines|
  {
    if lines != [] {
      var init, last := lines[..|lines| - 1], lines[|lines| - 1];
      var a, b := TextOf(LineParas(init)), TextOf(LinePara(last));
      calc {
        NoSpace(TextOf(LineParas(lines)));
        { TextOfAppend(LineParas(init), LinePara(last)); }
        NoSpace(a + b);
        { NoSpaceAppend(a, b); }
        NoSpace(a) + NoSpace(b);
        { LineParasKeepText(init); LineParaKeepsText(last); }
        NoSpaceAll(init) + NoSpace(last);
        { NoSpaceAllAppend(init, [last]); NoSpaceAllSingle(last); FrontLast(lines); }
        NoSpaceAll(lines);
      }
    }
  }

  /** The paragraphs of `text` hold all of its characters except whitespace, in order. */
  lemma ParagraphsKeepText(text: string)
    ensures NoSpace(TextOf(Paragraphs(text))) == NoSpace(text)
  {
    LineParasKeepText(SplitOn(text, '\n'));
    NoSpaceSplit(text, '\n');
  }

  /** The separator `\n\s*` is whitespace. */
  lemma SeparatorIsSpace(s: string, j: nat)
    requires j < |s| && s[j] == '\n'
    ensures AllSpace(s[j..SeparatorEnd(s, j)])
  {
    var k := SeparatorEnd(s, j);
    assert s[j + 1..k] == s[j + 1..][..SpaceRun(s[j + 1..])];
    forall i | 0 <= i < k - j ensures IsSpace(s[j..k][i]) {
      if i > 0 {
        assert s[j..k][i] == s[j + 1..k][i - 1];
      }
    }
  }

  /** Splitting at headings drops only the separators, which are whitespace. */
  lemma {:induction false} SplitKeepsText(s: string, lv: Level)
    ensures NoSpaceAll(SplitAtHeadings(s, lv)) == NoSpace(s)
    decreases |s|
  {
    var j := NextBoundary(s, lv, 0);
    if j == |s| {
      NoSpaceAllSingle(s);
    } else {
      NextBoundaryFound(s, lv, 0);
      var k := SeparatorEnd(s, j);
      var head, sep, tail := s[..j], s[j..k], s[k..];
      ThreeSlices(s, j, k);
      SplitKeepsText(tail, lv);
      SeparatorIsSpace(s, j);
      PiecesKeepText(head, sep, tail, SplitAtHeadings(tail, lv));
    }
  }

  lemma PiecesKeepText(head: string, sep: string, tail: string, pieces: seq<string>)
    requires AllSpace(sep) && NoSpaceAll(pieces) == NoSpace(tail)
    ensures NoSpaceAll([head] + pieces) == NoSpace(head + sep + tail)
  {
    calc {
      NoSpaceAll([head] + pieces);
      { NoSpaceAllAppend([head], pieces); NoSpaceAllSingle(head); }
      NoSpace(head) + NoSpaceAll(pieces);
      { NoSpaceOfSpace(sep); }
      NoSpace(head) + NoSpace(sep) + NoSpace(tail);
      { NoSpaceAppend(head, sep); NoSpaceAppend(head + sep, tail); }
      NoSpace(head + sep + tail);
    }
  }

  /** Text of a heading element followed by a body. */
  lemma HeadedText(st: Style, title: string, rest: seq<Element>)
    ensures TextOf([Para(st, title)] + rest) == title + TextOf(rest)
  {
    var e := Para(st, title);
    assert [e][..0] == [];
    assert TextOf([e]) == title;
    TextOfAppend([e], rest);
  }

  /** A heading taken from the front of `whole`, followed by elements that keep
      the text of the stripped remainder, keeps the text of `whole`. */
  lemma HeadedKeepsText(st: Style, whole: string, title: string, tail: seq<Element>)
    requires title <= whole
    requires NoSpace(TextOf(tail)) == NoSpace(Strip(whole[|title|..]))
    ensures NoSpace(TextOf([Para(st, title)] + tail)) == NoSpace(whole)
  {
    var rest := whole[|title|..];
    assert whole == title + rest;
    calc {
      NoSpace(TextOf([Para(st, title)] + tail));
      { HeadedText(st, title, tail); }
      NoSpace(title + TextOf(tail));
      { NoSpaceAppend(title, TextOf(tail)); }
      NoSpace(title) + NoSpace(TextOf(tail));
      { NoSpaceStrip(rest); }
      NoSpace(title) + NoSpace(rest);
      { NoSpaceAppend(title, rest); }
      NoSpace(whole);
    }
  }

  lemma SubsectionKeepsText(sub: string)
    ensures NoSpace(TextOf(SubsectionElements(sub))) == NoSpace(sub)
  {
    match HeadingLine(sub, Subsection)
    case None => ParagraphsKeepText(sub);
    case Some(m) =>
      var subtitle := Strip(m);
      var subcontent := Strip(sub[|subtitle|..]);
      if subcontent != [] {
        ParagraphsKeepText(subcontent);
        HeadedKeepsText(Heading2, sub, subtitle, Paragraphs(subcontent));
      } else {
        HeadedKeepsText(Heading2, sub, subtitle, []);
      }
  }

  lemma {:induction false} SubsectionsKeepText(subs: seq<string>)
    ensures NoSpace(TextOf(SubsectionsOf(subs))) == NoSpaceAll(subs)
    decreases |subs|
  {
    if subs != [] {
      var init, last := subs[..|subs| - 1], subs[|subs| - 1];
      FrontLast(subs);
      var a, b := TextOf(SubsectionsOf(init)), TextOf(SubsectionElements(last));
      calc {
        NoSpace(TextOf(SubsectionsOf(subs)));
        { TextOfAppend(SubsectionsOf(init), SubsectionElements(last)); }
        NoSpace(a + b);
        { NoSpaceAppend(a, b); }
        NoSpace(a) + NoSpace(b);
        { SubsectionsKeepText(init); SubsectionKeepsText(last); }
        NoSpaceAll(init) + NoSpace(last);
        { NoSpaceAllAppend(init, [last]); NoSpaceAllSingle(last); }
        NoSpaceAll(subs);
      }
    }
  }

  lemma SectionBodyKeepsText(body: string)
    ensures NoSpace(TextOf(SectionBody(body))) == NoSpace(body)
  {
    SubsectionsKeepText(SplitAtHeadings(body, Subsection));
    SplitKeepsText(body, Subsection);
  }

  lemma ChunkKeepsText(sections: seq<string>, section: string)
    ensures NoSpace(TextOf(ChunkElements(sections, section))) == NoSpace(section)
  {
    if IndexOf(sections, section) == 0 && !StartsHeading(Strip(section), Section) {
      ParagraphsKeepText(section);
    } else {
      match HeadingLine(section, Section)
      case None => ParagraphsKeepText(section);
      case Some(m) =>
        var title := Strip(m);
        var content := Strip(section[|title|..]);
        if content != [] {
          SectionBodyKeepsText(content);
          HeadedKeepsText(Heading1, section, title, SectionBody(content));
        } else {
          HeadedKeepsText(Heading1, section, title, []);
        }
    }
  }

  /** Parts that each keep the text of their piece keep the text of all the pieces. */
  lemma {:induction false} FlattenKeepsText(parts: seq<seq<Element>>, pieces: seq<string>)
    requires |parts| == |pieces|
    requires forall k :: 0 <= k < |parts| ==> NoSpace(TextOf(parts[k])) == NoSpace(pieces[k])
    ensures NoSpace(TextOf(Flatten(parts))) == NoSpaceAll(pieces)
    decreases |parts|
  {
    if parts != [] {
      var n := |parts|;
      var init, last := pieces[..n - 1], pieces[n - 1];
      FrontLast(pieces);
      var a, b := TextOf(Flatten(parts[..n - 1])), TextOf(parts[n - 1]);
      calc {
        NoSpace(TextOf(Flatten(parts)));
        { TextOfAppend(Flatten(parts[..n - 1]), parts[n - 1]); }
        NoSpace(a + b);
        { NoSpaceAppend(a, b); }
        NoSpace(a) + NoSpace(b);
        { FlattenKeepsText(parts[..n - 1], init); }
        NoSpaceAll(init) + NoSpace(last);
        { NoSpaceAllAppend(init, [last]); NoSpaceAllSingle(last); }
        NoSpaceAll(pieces);
      }
    }
  }

  /** The parser loses no text: the paragraphs it emits hold every character of
      the content that is not whitespace, in the original order. */
  lemma OnlyWhitespaceDropped(content: string)
    ensures NoSpace(TextOf(GeneralContent(content))) == NoSpace(content)
  {
    var sections := SplitAtHeadings(content, Section);
    var parts := ChunkParts(sections);
    forall k | 0 <= k < |parts| ensures NoSpace(TextOf(parts[k])) == NoSpace(sections[k]) {
      ChunkKeepsText(sections, sections[k]);
    }
    assert parts[..|sections|] == parts;
    FlattenKeepsText(parts, sections);
    SplitKeepsText(content, Section);
  }

  // ----- heading order -----

  predicate IsStyled(e: Element, st: Style)
  {
    e.Para? && e.style == st
  }

  /** Every `Heading 2` has a `Heading 1` somewhere before it. */
  ghost predicate SubheadingsFollowHeadings(es: seq<Element>)
  {
    forall i :: 0 <= i < |es| && IsStyled(es[i], Heading2) ==> exists j :: 0 <= j < i && IsStyled(es[j], Heading1)
  }

  lemma SubheadingsAppend(a: seq<Element>, b: seq<Element>)
    requires SubheadingsFollowHeadings(a) && SubheadingsFollowHeadings(b)
    ensures SubheadingsFollowHeadings(a + b)
  {
    forall i | 0 <= i < |a + b| && IsStyled((a + b)[i], Heading2)
      ensures exists j :: 0 <= j < i && IsStyled((a + b)[j], Heading1)
    {
      if i < |a| {
        assert IsStyled(a[i], Heading2);
        var j :| 0 <= j < i && IsStyled(a[j], Heading1);
        assert (a + b)[j] == a[j];
      } else {
        assert IsStyled(b[i - |a|], Heading2);
        var j :| 0 <= j < i - |a| && IsStyled(b[j], Heading1);
        assert (a + b)[j + |a|] == b[j];
      }
    }
  }

  lemma ChunkSubheadings(sections: seq<string>, section: string)
    ensures SubheadingsFollowHeadings(ChunkElements(sections, section))
  {
    var r := ChunkElements(sections, section);
    if !(IndexOf(sections, section) == 0 && !StartsHeading(Strip(section), Section)) && HeadingLine(section, Section).Some? {
      assert IsStyled(r[0], Heading1);
      forall i | 0 <= i < |r| && IsStyled(r[i], Heading2)
        ensures exists j :: 0 <= j < i && IsStyled(r[j], Heading1)
      {
        assert 0 < i;
      }
    } else {
      assert forall e :: e in r ==> e.style == Normal;
    }
  }

  /** The parser never emits a `Heading 2` before the first `Heading 1`. */
  lemma NoSubheadingBeforeHeading(content: string)
    ensures SubheadingsFollowHeadings(GeneralContent(content))
  {
    var sections := SplitAtHeadings(content, Section);
    var parts := ChunkParts(sections);
    forall a, b | SubheadingsFollowHeadings(a) && SubheadingsFollowHeadings(b)
      ensures SubheadingsFollowHeadings(a + b)
    {
      SubheadingsAppend(a, b);
    }
    forall k | 0 <= k < |parts| ensures SubheadingsFollowHeadings(parts[k]) {
      ChunkSubheadings(sections, sections[k]);
    }
    assert parts[..|sections|] == parts;
    FlattenKeeps(parts, es => SubheadingsFollowHeadings(es));
  }

  // ----- where the split falls -----

  /** No boundary falls inside the heading pattern at the start of `t`. */
  lemma NoBoundaryInsideHeading(t: string, lv: Level, k: nat)
    requires StartsHeading(t, lv) && k <= HeadingEnd(t, lv)
    ensures !IsBoundary(t, k, lv)
  {
    if t[k] == '\n' {
      SeparatorInsideHeading(t, lv, k);
      UpperNotHeading(t[HeadingEnd(t, lv)..], lv);
    }
  }

  /** A line break between the heading number and the capital letter starts a
      separator that runs up to that letter. */
  lemma SeparatorInsideHeading(t: string, lv: Level, k: nat)
    requires StartsHeading(t, lv) && NumberLength(t, lv).value <= k < HeadingEnd(t, lv)
    requires t[k] == '\n'
    ensures SeparatorEnd(t, k) == HeadingEnd(t, lv)
  {
    SpaceRunFrom(t, NumberLength(t, lv).value, k);
  }

  /** Whitespace read from inside a run of it ends where the run ends. */
  lemma SpaceRunFrom(t: string, n: nat, k: nat)
    requires n <= |t| && n <= k < n + SpaceRun(t[n..])
    ensures k + 1 + SpaceRun(t[k + 1..]) == n + SpaceRun(t[n..])
  {
    RunSuffix(IsSpace, t[n..], k + 1 - n);
    assert t[n..][k + 1 - n..] == t[k + 1..];
  }

  /** Text that opens with a capital letter opens with no heading number. */
  lemma UpperNotHeading(u: string, lv: Level)
    requires u != [] && IsUpper(u[0])
    ensures !StartsHeading(u, lv)
  {
    assert DigitRun(u) == 0;
  }

  lemma FirstPieceOpensWithHeading(t: string, lv: Level)
    requires StartsHeading(t, lv)
    ensures StartsHeading(SplitAtHeadings(t, lv)[0], lv)
  {
    FirstPiece(t, lv);
    FirstBoundaryPastHeading(t, lv);
    PrefixKeepsHeading(t, lv, NextBoundary(t, lv, 0));
  }

  /** A prefix that reaches past the capital letter still opens with the heading. */
  lemma PrefixKeepsHeading(t: string, lv: Level, j: nat)
    requires StartsHeading(t, lv) && j <= |t|
    requires j == |t| || HeadingEnd(t, lv) < j
    ensures StartsHeading(t[..j], lv)
  {
    if j < |t| {
      assert t[..j][..j] == t[..j];
      HeadingAgree(t, t[..j], lv, j);
    } else {
      assert t[..j] == t;
    }
  }

  /** In text that opens with a heading, the first boundary lies past its capital letter. */
  lemma FirstBoundaryPastHeading(t: string, lv: Level)
    requires StartsHeading(t, lv)
    ensures NextBoundary(t, lv, 0) == |t| || HeadingEnd(t, lv) < NextBoundary(t, lv, 0)
  {
    var j := NextBoundary(t, lv, 0);
    if j < |t| && j <= HeadingEnd(t, lv) {
      NextBoundaryFound(t, lv, 0);
      NoBoundaryInsideHeading(t, lv, j);
    }
  }

  /** The first piece of a split runs up to the first boundary. */
  lemma FirstPiece(s: string, lv: Level)
    ensures SplitAtHeadings(s, lv)[0] == s[..NextBoundary(s, lv, 0)]
  {
  }

  /** Putting any piece in front of pieces that all satisfy `p`: all but the first do. */
  lemma AllButFirst(first: string, rest: seq<string>, p: string -> bool)
    requires |rest| >= 1 && p(rest[0])
    requires forall k :: 1 <= k < |rest| ==> p(rest[k])
    ensures forall k :: 1 <= k < |[first] + rest| ==> p(([first] + rest)[k])
  {
    forall k | 1 <= k < |[first] + rest|
      ensures p(([first] + rest)[k])
    {
      assert ([first] + rest)[k] == rest[k - 1];
    }
  }

  /** Every piece of a split except the first opens with a heading of the level
      split at: the lookahead of the separator stays with the piece after it. */
  lemma {:induction false} LaterPiecesOpenWithHeading(s: string, lv: Level)
    ensures forall k :: 1 <= k < |SplitAtHeadings(s, lv)| ==> StartsHeading(SplitAtHeadings(s, lv)[k], lv)
    decreases |s|
  {
    var j := NextBoundary(s, lv, 0);
    var pieces := SplitAtHeadings(s, lv);
    if j == |s| {
      assert |pieces| == 1;
    } else {
      NextBoundaryFound(s, lv, 0);
      var t := s[SeparatorEnd(s, j)..];
      var rest := SplitAtHeadings(t, lv);
      LaterPiecesOpenWithHeading(t, lv);
      FirstPieceOpensWithHeading(t, lv);
      AllButFirst(s[..j], rest, u => StartsHeading(u, lv));
      assert pieces == [s[..j]] + rest;
    }
  }

  // ----- text without section headings -----

  /** No line of `s`, once its leading whitespace is skipped, opens with `\d+\.\s+[A-Z]`. */
  ghost predicate NoHeadingLine(s: string)
  {
    forall i :: 0 <= i <= |s| && (i == 0 || s[i - 1] == '\n') ==> !StartsHeading(s[i..][SpaceRun(s[i..])..], Section)
  }

  /** Text without section headings becomes one paragraph per non-blank line. */
  lemma FlatText(s: string)
    requires NoHeadingLine(s)
    ensures GeneralContent(s) == Paragraphs(s)
  {
    NoSplitWithoutHeadingLine(s);
    assert s[0..] == s;
    StripNoHeading(s);
    UnheadedChunk([s], s);
    ChunksOfSnoc([s], 0);
  }

  /** Without a heading line there is no boundary, so the split leaves one piece. */
  lemma NoSplitWithoutHeadingLine(s: string)
    requires NoHeadingLine(s)
    ensures SplitAtHeadings(s, Section) == [s]
  {
    forall j | 0 <= j < |s| ensures !IsBoundary(s, j, Section) {
      if s[j] == '\n' {
        assert s[j + 1..][SpaceRun(s[j + 1..])..] == s[SeparatorEnd(s, j)..];
      }
    }
    NextBoundaryFound(s, Section, 0);
  }

  /** Stripping trailing whitespace cannot create a heading at the start. */
  lemma StripNoHeading(s: string)
    requires !StartsHeading(s[SpaceRun(s)..], Section)
    ensures !StartsHeading(Strip(s), Section)
  {
    var a := SpaceRun(s);
    var r := Strip(s);
    if StartsHeading(r, Section) {
      assert s[a..][..|r|] == r[..|r|];
      HeadingAgree(r, s[a..], Section, |r|);
    }
  }

  /** The non-blank lines of `lines`, in order. */
  function NonBlank(lines: seq<string>): (r: seq<string>)
    ensures |r| <= |lines|
    decreases |lines|
  {
    if lines == [] then [] else (if Strip(lines[0]) != [] then [lines[0]] else []) + NonBlank(lines[1..])
  }

  lemma {:induction false} NonBlankAppend(lines: seq<string>, line: string)
    ensures NonBlank(lines + [line]) == NonBlank(lines) + (if Strip(line) != [] then [line] else [])
    decreases |lines|
  {
    var last := if Strip(line) != [] then [line] else [];
    if lines == [] {
      assert lines + [line] == [line];
    } else {
      var first := if Strip(lines[0]) != [] then [lines[0]] else [];
      var x := lines + [line];
      assert x[0] == lines[0] && x[1..] == lines[1..] + [line];
      assert NonBlank(x) == first + NonBlank(lines[1..] + [line]);
      NonBlankAppend(lines[1..], line);
      AppendAssoc(first, NonBlank(lines[1..]), last);
    }
  }

  /** One `Normal` paragraph per non-blank line, holding that line stripped. */
  lemma {:induction false} LineParasPerLine(lines: seq<string>)
    ensures var nb := NonBlank(lines);
      |LineParas(lines)| == |nb| &&
      forall k :: 0 <= k < |nb| ==> LineParas(lines)[k] == Para(Normal, Strip(nb[k]))
    decreases |lines|
  {
    if lines != [] {
      var init, last := lines[..|lines| - 1], lines[|lines| - 1];
      FrontLast(lines);
      LineParasPerLine(init);
      var ps, nb := LineParas(init), NonBlank(init);
      NonBlankAppend(init, last);
      assert LineParas(lines) == ps + LinePara(last);
      assert NonBlank(lines) == nb + (if Strip(last) != [] then [last] else []);
      forall k | 0 <= k < |NonBlank(lines)|
        ensures LineParas(lines)[k] == Para(Normal, Strip(NonBlank(lines)[k]))
      {
        if k < |nb| {
          assert LineParas(lines)[k] == ps[k];
          assert NonBlank(lines)[k] == nb[k];
        }
      }
    }
  }

  /** `Paragraphs` adds exactly one paragraph for each non-blank line of the text. */
  lemma ParagraphsPerLine(text: string)
    ensures var nb := NonBlank(SplitOn(text, '\n'));
      |Paragraphs(text)| == |nb| &&
      forall k :: 0 <= k < |nb| ==> Paragraphs(text)[k] == Para(Normal, Strip(nb[k]))
  {
    LineParasPerLine(SplitOn(text, '\n'));
  }
}
