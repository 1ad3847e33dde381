/** The free-text parser on a small document with two sections and one
    subsection, worked through line by line: which lines end a piece, which
    heading each piece opens with, and the paragraphs that result. */
module ParserExample {
  import opened Wrappers
  import opened Text
  import opened Docx
  import opened Sections

  // ----- boundaries line by line -----

  /** A stretch without a newline holds no boundary. */
  lemma {:induction false} SkipLine(s: string, lv: Level, from: nat, j: nat)
    requires from <= j <= |s|
    requires '\n' !in s[from..j]
    ensures NextBoundary(s, lv, from) == NextBoundary(s, lv, j)
    decreases j - from
  {
    if from < j {
      assert s[from] == s[from..j][0];
      assert s[from + 1..j] == s[from..j][1..];
      SkipLine(s, lv, from + 1, j);
    }
  }

  /** Past the first `off` characters, the boundaries of `s` are those of the rest
      `b`, shifted by `off`. */
  lemma Shift(s: string, b: string, off: nat, lv: Level)
    requires off + |b| == |s| && s[off..] == b
    ensures NextBoundary(s, lv, off) == off + NextBoundary(b, lv, 0)
  {
    forall k | 0 <= k < |b|
      ensures IsBoundary(s, off + k, lv) == IsBoundary(b, k, lv)
    {
      BoundaryShift(s, b, off, lv, k);
    }
    SameBoundaries(s, b, off, lv, 0);
  }

  /** Two texts whose boundary tests agree from `k` on (shifted by `off`) find the
      same next boundary. */
  lemma {:induction false} SameBoundaries(s: string, b: string, off: nat, lv: Level, k: nat)
    requires off + |b| == |s| && k <= |b|
    requires forall i :: k <= i < |b| ==> IsBoundary(s, off + i, lv) == IsBoundary(b, i, lv)
    ensures NextBoundary(s, lv, off + k) == off + NextBoundary(b, lv, k)
    decreases |b| - k
  {
    if k < |b| {
      SameBoundaries(s, b, off, lv, k + 1);
      StepBack(s, b, off, lv, k);
    } else {
      BothEnd(s, b, off, lv, k);
    }
  }

  /** Agreement from `k + 1` on and at `k` gives agreement from `k` on. */
  lemma StepBack(s: string, b: string, off: nat, lv: Level, k: nat)
    requires off + |b| == |s| && k < |b|
    ensures (IsBoundary(s, off + k, lv) == IsBoundary(b, k, lv) &&
             NextBoundary(s, lv, off + (k + 1)) == off + NextBoundary(b, lv, k + 1)) ==>
            NextBoundary(s, lv, off + k) == off + NextBoundary(b, lv, k)
  {
  }

  /** At the end of both texts the search stops. */
  lemma BothEnd(s: string, b: string, off: nat, lv: Level, k: nat)
    requires off + |b| == |s| && k == |b|
    ensures NextBoundary(s, lv, off + k) == off + NextBoundary(b, lv, k)
  {
  }

  /** A boundary test past the first `off` characters reads only the rest `b`. */
  lemma BoundaryShift(s: string, b: string, off: nat, lv: Level, k: nat)
    requires off + |b| == |s| && s[off..] == b && k < |b|
    ensures IsBoundary(s, off + k, lv) == IsBoundary(b, k, lv)
  {
    var i := off + k;
    assert s[i] == b[k];
    var r := s[i + 1..];
    assert r == b[k + 1..];
    assert SeparatorEnd(s, i) == off + SeparatorEnd(b, k);
    var x := s[SeparatorEnd(s, i)..];
    assert x == b[SeparatorEnd(b, k)..];
  }

  /** At a newline, a boundary is a heading after the whitespace that follows it. */
  lemma NewlineBoundary(s: string, j: nat, lv: Level)
    requires j < |s| && s[j] == '\n'
    ensures IsBoundary(s, j, lv) <==> StartsHeading(s[SeparatorEnd(s, j)..], lv)
  {
  }

  /** The newline after a first line `a` is a boundary just when a heading follows
      the whitespace after it. */
  lemma BoundaryAfterLine(a: string, b: string, lv: Level)
    ensures IsBoundary(a + "\n" + b, |a|, lv) <==> StartsHeading(b[SpaceRun(b)..], lv)
  {
    var s := a + "\n" + b;
    assert s[|a| + 1..] == b;
    var x := s[SeparatorEnd(s, |a|)..];
    assert x == b[SpaceRun(b)..];
    NewlineBoundary(s, |a|, lv);
  }

  /** When a heading follows the newline after the first line `a`, that newline is
      the first boundary. */
  lemma FirstLineHeading(a: string, b: string, lv: Level, s: string)
    requires s == a + "\n" + b && '\n' !in a && SpaceRun(b) == 0 && StartsHeading(b, lv)
    ensures NextBoundary(s, lv, 0) == |a|
  {
    assert b[0..] == b;
    assert s[0..|a|] == a;
    SkipLine(s, lv, 0, |a|);
    BoundaryAfterLine(a, b, lv);
    SearchStep(s, lv, |a|);
  }

  /** Otherwise the first boundary is the first one of the rest, past that newline. */
  lemma FirstLinePlain(a: string, b: string, lv: Level, s: string)
    requires s == a + "\n" + b && '\n' !in a && !StartsHeading(b[SpaceRun(b)..], lv)
    ensures NextBoundary(s, lv, 0) == |a| + 1 + NextBoundary(b, lv, 0)
  {
    assert s[0..|a|] == a;
    SkipLine(s, lv, 0, |a|);
    BoundaryAfterLine(a, b, lv);
    SearchStep(s, lv, |a|);
    assert s[|a| + 1..] == b;
    Shift(s, b, |a| + 1, lv);
  }

  /** A single line is never split. */
  lemma OneLine(s: string, lv: Level)
    requires '\n' !in s
    ensures SplitAtHeadings(s, lv) == [s]
  {
    assert s[0..|s|] == s;
    SkipLine(s, lv, 0, |s|);
  }

  /** The text before and after the newline that ends the first line. */
  lemma CutAtLine(a: string, b: string, s: string)
    requires s == a + "\n" + b
    ensures s[..|a|] == a && s[|a| + 1..] == b && s[|a|..] == "\n" + b
    ensures SeparatorEnd(s, |a|) == |a| + 1 + SpaceRun(b)
  {
    assert s[..|a|] == a;
    assert s[|a| + 1..] == b;
    assert s[|a|..] == "\n" + b;
  }

  /** A line followed by a heading line is split off as a piece of its own. */
  lemma SplitBeforeHeading(a: string, b: string, lv: Level)
    requires '\n' !in a && SpaceRun(b) == 0 && StartsHeading(b, lv)
    ensures SplitAtHeadings(a + "\n" + b, lv) == [a] + SplitAtHeadings(b, lv)
  {
    var s := a + "\n" + b;
    FirstLineHeading(a, b, lv, s);
    SplitAtLine(a, b, lv, s);
  }

  /** A split whose first boundary is the newline after the first line `a`. */
  lemma SplitAtLine(a: string, b: string, lv: Level, s: string)
    requires s == a + "\n" + b && NextBoundary(s, lv, 0) == |a| && SpaceRun(b) == 0
    ensures SplitAtHeadings(s, lv) == [a] + SplitAtHeadings(b, lv)
  {
    CutAtLine(a, b, s);
    assert s[|a| + 1 + 0..] == b;
    SplitAtBoundary(s, lv, |a|, a, b);
  }

  /** The split at the first boundary `j`. */
  lemma SplitAtBoundary(s: string, lv: Level, j: nat, head: string, tail: string)
    requires j == NextBoundary(s, lv, 0) && j < |s|
    requires head == s[..j] && tail == s[SeparatorEnd(s, j)..]
    ensures SplitAtHeadings(s, lv) == [head] + SplitAtHeadings(tail, lv)
  {
  }

  /** A text without a boundary is one piece. */
  lemma SplitNoBoundary(s: string, lv: Level)
    requires NextBoundary(s, lv, 0) == |s|
    ensures SplitAtHeadings(s, lv) == [s]
  {
  }

  /** A boundary of `b` seen inside `a + "\n" + b`: the text before it and the text
      after its separator. */
  lemma CutAfterLine(a: string, b: string, j: nat, s: string, i: nat)
    requires j < |b| && s == a + "\n" + b && i == |a| + 1 + j
    ensures s[..i] == a + "\n" + b[..j]
    ensures SeparatorEnd(s, i) == |a| + 1 + SeparatorEnd(b, j)
    ensures s[SeparatorEnd(s, i)..] == b[SeparatorEnd(b, j)..]
  {
    assert s[..i] == a + "\n" + b[..j];
    assert s[i + 1..] == b[j + 1..];
    assert s[|a| + 1 + SeparatorEnd(b, j)..] == b[SeparatorEnd(b, j)..];
  }

  /** When the first boundary of `a + "\n" + b` is the first boundary of `b`, the
      first piece is `a` joined to the first piece of `b`. */
  lemma JoinAtBoundary(a: string, b: string, lv: Level, j: nat)
    requires j == NextBoundary(b, lv, 0) && j < |b|
    requires NextBoundary(a + "\n" + b, lv, 0) == |a| + 1 + j
    ensures SplitAtHeadings(a + "\n" + b, lv)
      == [a + "\n" + b[..j]] + SplitAtHeadings(b[SeparatorEnd(b, j)..], lv)
  {
    var s := a + "\n" + b;
    var i := |a| + 1 + j;
    CutAfterLine(a, b, j, s, i);
    SplitAtBoundary(s, lv, i, a + "\n" + b[..j], b[SeparatorEnd(b, j)..]);
  }

  /** A line followed by anything but a heading joins the first piece of the rest. */
  lemma JoinLine(a: string, b: string, lv: Level)
    requires '\n' !in a && !StartsHeading(b[SpaceRun(b)..], lv)
    ensures var r := SplitAtHeadings(b, lv);
      SplitAtHeadings(a + "\n" + b, lv) == [a + "\n" + r[0]] + r[1..]
  {
    var s := a + "\n" + b;
    FirstLinePlain(a, b, lv, s);
    var j := NextBoundary(b, lv, 0);
    var r := SplitAtHeadings(b, lv);
    if j == |b| {
      SplitNoBoundary(b, lv);
      SplitNoBoundary(s, lv);
      assert r[0] == b && r[1..] == [];
    } else {
      SplitAtBoundary(b, lv, j, b[..j], b[SeparatorEnd(b, j)..]);
      JoinAtBoundary(a, b, lv, j);
      var rest := SplitAtHeadings(b[SeparatorEnd(b, j)..], lv);
      assert r[0] == b[..j] && r[1..] == rest;
    }
  }

  // ----- headings and paragraphs -----

  /** `\s+[^\n]+` on a line that opens with whitespace and holds something else:
      the whole line. */
  lemma WsThenWholeLine(u: string, rest: string, t: string)
    requires '\n' !in u && 1 <= SpaceRun(u) < |u| && t == u + "\n" + rest
    ensures WsThenLine(t) == Some(|u|)
  {
    var w := SpaceRun(u);
    assert u[..|u|] == t[..|u|];
    RunAgree(IsSpace, u, t, |u|);
    assert t[w] == u[w];
    assert t[w..] == u[w..] + "\n" + rest;
    assert '\n' !in u[w..] by {
      assert forall c :: c in u[w..] ==> c in u;
    }
    FirstLine(u[w..], rest);
  }

  /** A heading line that ends at a newline is what the heading pattern takes. */
  lemma HeadingLineIs(h: string, rest: string, lv: Level, n: nat)
    requires '\n' !in h && NumberLength(h, lv) == Some(n)
    requires 1 <= SpaceRun(h[n..]) && n + SpaceRun(h[n..]) < |h|
    ensures HeadingLine(h + "\n" + rest, lv) == Some(h)
  {
    var s := h + "\n" + rest;
    var m := |h| - n;
    assert NumberLength(s, lv) == Some(n) by {
      NumberKept(h, rest, lv, s);
    }
    assert WsThenLine(s[n..]) == Some(m) by {
      LineAfterNumber(h, rest, n, s);
      WsThenWholeLine(h[n..], rest, s[n..]);
    }
    assert s[..n + m] == h by {
      LineAfterNumber(h, rest, n, s);
    }
    HeadingLineFrom(s, lv, n, m);
  }

  /** A heading number on a line is kept when more lines follow. */
  lemma NumberKept(h: string, rest: string, lv: Level, s: string)
    requires NumberLength(h, lv).Some? && NumberLength(h, lv).value < |h| && s == h + "\n" + rest
    ensures NumberLength(s, lv) == NumberLength(h, lv)
  {
    assert s[..|h|] == h[..|h|];
    NumberAgree(h, s, lv, |h|);
  }

  /** The line of a heading past its number, followed by the rest of the text. */
  lemma LineAfterNumber(h: string, rest: string, n: nat, s: string)
    requires '\n' !in h && n <= |h| && s == h + "\n" + rest
    ensures s[n..] == h[n..] + "\n" + rest && '\n' !in h[n..] && s[..|h|] == h
  {
    assert forall c :: c in h[n..] ==> c in h;
  }

  /** The heading pattern, once its number and the rest of its line are known. */
  lemma HeadingLineFrom(s: string, lv: Level, n: nat, m: nat)
    requires NumberLength(s, lv) == Some(n) && n <= |s| && WsThenLine(s[n..]) == Some(m)
    ensures n + m <= |s| && HeadingLine(s, lv) == Some(s[..n + m])
  {
  }

  /** The text after a heading line, stripped. */
  lemma AfterNewline(rest: string)
    requires rest != [] && IsStripped(rest)
    ensures Strip("\n" + rest) == rest
  {
    var s := "\n" + rest;
    assert s[1..] == rest;
    assert SpaceRun(s) == 1;
    StripStripped(rest);
  }

  /** A plain line is one `Normal` paragraph. */
  lemma PlainParagraph(p: string)
    requires PlainShape(p)
    ensures Paragraphs(p) == [Para(Normal, p)]
  {
    SplitOnWhole(p, '\n');
    StripStripped(p);
    assert [p][..0] == [];
    assert LineParas([p]) == [Para(Normal, p)];
  }

  /** A plain line as a piece of a section body: one `Normal` paragraph. */
  lemma PlainSubsection(p: string)
    requires PlainShape(p)
    ensures SubsectionElements(p) == [Para(Normal, p)]
  {
    CapitalStart(p);
    UnheadedSubsection(p);
    PlainParagraph(p);
  }

  /** A plain line as the whole body of a section: one `Normal` paragraph. */
  lemma PlainBody(p: string)
    requires PlainShape(p)
    ensures SectionBody(p) == [Para(Normal, p)]
  {
    OneLine(p, Subsection);
    SubsectionsOfSnoc([p], 0);
    assert [p][..1] == [p] && [p][..0] == [];
    PlainSubsection(p);
  }

  /** A section whose heading line is followed by a stripped body: a `Heading 1`,
      then the body cut at its subsection headings. */
  lemma HeadedSection(sections: seq<string>, s: string, h: string, body: string, n: nat)
    requires s == h + "\n" + body
    requires '\n' !in h && IsStripped(h) && NumberLength(h, Section) == Some(n)
    requires 1 <= SpaceRun(h[n..]) && n + SpaceRun(h[n..]) < |h|
    requires body != [] && IsStripped(body)
    requires !(IndexOf(sections, s) == 0 && !StartsHeading(Strip(s), Section))
    ensures ChunkElements(sections, s) == [Para(Heading1, h)] + SectionBody(body)
  {
    HeadingLineIs(h, body, Section, n);
    StripStripped(h);
    CutAtLine(h, body, s);
    AfterNewline(body);
    HeadedChunk(sections, s, h, body);
  }

  /** A subsection whose heading line is followed by a stripped body: a `Heading 2`,
      then the body's lines. */
  lemma HeadedSub(s: string, h: string, body: string, n: nat)
    requires s == h + "\n" + body
    requires '\n' !in h && IsStripped(h) && NumberLength(h, Subsection) == Some(n)
    requires 1 <= SpaceRun(h[n..]) && n + SpaceRun(h[n..]) < |h|
    requires body != [] && IsStripped(body)
    ensures SubsectionElements(s) == [Para(Heading2, h)] + Paragraphs(body)
  {
    HeadingLineIs(h, body, Subsection, n);
    StripStripped(h);
    CutAtLine(h, body, s);
    AfterNewline(body);
    HeadedSubsection(s, h, body);
  }

  // ----- line shapes -----

  /** A line that opens with a capital letter is no heading of either level. */
  lemma CapitalStart(s: string)
    requires s != [] && IsUpper(s[0])
    ensures SpaceRun(s) == 0 && s[SpaceRun(s)..] == s
    ensures !StartsHeading(s, Section) && !StartsHeading(s, Subsection)
    ensures HeadingLine(s, Section).None? && HeadingLine(s, Subsection).None?
  {
    assert !IsSpace(s[0]) && !IsDigit(s[0]);
  }

  /** `D. C...` opens a section heading whose number takes two characters and whose
      blank takes one. */
  lemma SectionStart(s: string)
    requires |s| >= 4 && IsDigit(s[0]) && s[1] == '.' && s[2] == ' ' && IsUpper(s[3])
    ensures NumberLength(s, Section) == Some(2) && SpaceRun(s[2..]) == 1
    ensures StartsHeading(s, Section) && SpaceRun(s) == 0 && s[SpaceRun(s)..] == s
  {
    assert !IsDigit(s[1]) && !IsSpace(s[0]);
    assert s[2..][0] == ' ' && s[2..][1] == s[3] && !IsSpace(s[3]);
  }

  /** `D.D C...` opens a subsection heading, and no section heading. */
  lemma SubsectionStart(s: string)
    requires |s| >= 5 && IsDigit(s[0]) && s[1] == '.' && IsDigit(s[2]) && s[3] == ' ' && IsUpper(s[4])
    ensures NumberLength(s, Subsection) == Some(3) && SpaceRun(s[3..]) == 1
    ensures StartsHeading(s, Subsection) && !StartsHeading(s, Section)
    ensures SpaceRun(s) == 0 && s[SpaceRun(s)..] == s
  {
    assert !IsDigit(s[1]) && !IsSpace(s[0]);
    assert s[2..][0] == s[2] && s[2..][1] == ' ' && !IsSpace(s[2]);
    assert s[3..][0] == ' ' && s[3..][1] == s[4] && !IsSpace(s[4]);
  }

  // ----- the document -----

  /** A line of plain text: it opens with a capital letter. */
  predicate PlainShape(p: string)
  {
    p != [] && '\n' !in p && IsStripped(p) && IsUpper(p[0])
  }

  /** A section heading line `D. C...`. */
  predicate SectionShape(h: string)
  {
    |h| >= 4 && '\n' !in h && IsStripped(h) && IsDigit(h[0]) && h[1] == '.' && h[2] == ' ' && IsUpper(h[3])
  }

  /** A subsection heading line `D.D C...`. */
  predicate SubsectionShape(h: string)
  {
    |h| >= 5 && '\n' !in h && IsStripped(h) && IsDigit(h[0]) && h[1] == '.' && IsDigit(h[2]) && h[3] == ' ' && IsUpper(h[4])
  }

  /** A subsection heading line and its line are never split, whichever level is
      looked for. */
  lemma SubUnsplit(h3: string, z: string, sub: string, lv: Level)
    requires SubsectionShape(h3) && PlainShape(z) && sub == h3 + "\n" + z
    ensures SplitAtHeadings(sub, lv) == [sub]
  {
    OneLine(z, lv);
    CapitalStart(z);
    JoinLine(h3, z, lv);
  }

  /** A section of a heading line, a line and a subsection is one piece at the section level. */
  lemma SecondUnsplit(h2: string, y: string, h3: string, z: string, sub: string, body: string, second: string)
    requires SectionShape(h2) && PlainShape(y) && SubsectionShape(h3) && PlainShape(z)
    requires sub == h3 + "\n" + z && body == y + "\n" + sub && second == h2 + "\n" + body
    ensures SplitAtHeadings(second, Section) == [second]
  {
    SubUnsplit(h3, z, sub, Section);
    SubsectionStart(sub);
    JoinLine(y, sub, Section);
    CapitalStart(body);
    JoinLine(h2, body, Section);
  }

  /** The section split of the whole text: the first section's two lines stay together. */
  lemma SectionsOf(h1: string, x: string, second: string, first: string, after: string, doc: string)
    requires SectionShape(h1) && PlainShape(x) && |second| >= 4 && SectionShape(second[..4])
    requires SplitAtHeadings(second, Section) == [second]
    requires first == h1 + "\n" + x && after == x + "\n" + second && doc == h1 + "\n" + after
    ensures SplitAtHeadings(doc, Section) == [first, second]
  {
    SectionStart(second);
    SplitBeforeHeading(x, second, Section);
    CapitalStart(after);
    JoinLine(h1, after, Section);
  }

  /** The first section: its heading and one paragraph. */
  lemma FirstChunk(sections: seq<string>, h1: string, x: string, first: string)
    requires SectionShape(h1) && PlainShape(x) && first == h1 + "\n" + x
    requires |sections| == 2 && sections[0] == first
    ensures ChunkElements(sections, first) == [Para(Heading1, h1), Para(Normal, x)]
  {
    LeadingHeaded(h1, x, first);
    SectionStart(h1);
    HeadedSection(sections, first, h1, x, 2);
    PlainBody(x);
  }

  /** A text that opens with a section heading line still does once stripped. */
  lemma LeadingHeaded(h1: string, x: string, first: string)
    requires SectionShape(h1) && PlainShape(x) && first == h1 + "\n" + x
    ensures StartsHeading(Strip(first), Section)
  {
    assert IsStripped(first);
    StripStripped(first);
    SectionStart(first);
  }

  /** A subsection of a heading line and a plain line: a `Heading 2`, then the rest. */
  lemma SubHeading(h3: string, z: string, sub: string)
    requires SubsectionShape(h3) && PlainShape(z) && sub == h3 + "\n" + z
    ensures SubsectionElements(sub) == [Para(Heading2, h3)] + Paragraphs(z)
  {
    SubsectionStart(h3);
    HeadedSub(sub, h3, z, 3);
  }

  /** A subsection of a heading line and a plain line: a `Heading 2` and a paragraph. */
  lemma SubElements(h3: string, z: string, sub: string)
    requires SubsectionShape(h3) && PlainShape(z) && sub == h3 + "\n" + z
    ensures SubsectionElements(sub) == [Para(Heading2, h3), Para(Normal, z)]
  {
    SubHeading(h3, z, sub);
    PlainParagraph(z);
  }

  /** The second section's body: a paragraph, then a `Heading 2` and its paragraph. */
  lemma SecondBody(y: string, h3: string, z: string, sub: string, body: string)
    requires PlainShape(y) && SubsectionShape(h3) && PlainShape(z)
    requires sub == h3 + "\n" + z && body == y + "\n" + sub
    ensures SectionBody(body) == [Para(Normal, y), Para(Heading2, h3), Para(Normal, z)]
  {
    BodyPieces(y, h3, z, sub, body);
    TwoSubsections(y, sub);
    PlainSubsection(y);
    SubElements(h3, z, sub);
  }

  /** The second section's body is cut at its subsection heading. */
  lemma BodyPieces(y: string, h3: string, z: string, sub: string, body: string)
    requires PlainShape(y) && SubsectionShape(h3) && PlainShape(z)
    requires sub == h3 + "\n" + z && body == y + "\n" + sub
    ensures SplitAtHeadings(body, Subsection) == [y, sub]
  {
    SubsectionStart(sub);
    SplitBeforeHeading(y, sub, Subsection);
    SubUnsplit(h3, z, sub, Subsection);
    assert [y] + [sub] == [y, sub];
  }

  /** Two pieces of a section body: the elements of the first, then of the second. */
  lemma TwoSubsections(u: string, v: string)
    ensures SubsectionsOf([u, v]) == SubsectionElements(u) + SubsectionElements(v)
  {
    var subs := [u, v];
    assert subs[..1] == [u];
    assert subs[..0] == [];
    assert SubsectionsOf([u]) == SubsectionElements(u);
  }

  /** The second section: its heading, then its body. */
  lemma SecondChunk(sections: seq<string>, h2: string, body: string, second: string)
    requires SectionShape(h2) && body != [] && IsStripped(body) && second == h2 + "\n" + body
    requires |sections| == 2 && sections[1] == second && sections[0] != second
    ensures ChunkElements(sections, second) == [Para(Heading1, h2)] + SectionBody(body)
  {
    assert IndexOf(sections, second) == 1;
    SectionStart(h2);
    HeadedSection(sections, second, h2, body, 2);
  }

  /** A text cut into two sections: the elements of the first, then of the second. */
  lemma TwoChunks(doc: string, first: string, second: string)
    requires SplitAtHeadings(doc, Section) == [first, second]
    ensures GeneralContent(doc) == ChunkElements([first, second], first) + ChunkElements([first, second], second)
  {
    TwoChunksOf([first, second]);
  }

  /** The elements of two chunks, in order. */
  lemma TwoChunksOf(sections: seq<string>)
    requires |sections| == 2
    ensures ChunksOf(sections, 2) == ChunkElements(sections, sections[0]) + ChunkElements(sections, sections[1])
  {
    var parts := ChunkParts(sections);
    assert parts[..2] == parts;
    FlattenTwo(parts);
  }

  /** Two parts flatten to their concatenation. */
  lemma FlattenTwo(parts: seq<seq<Element>>)
    requires |parts| == 2
    ensures Flatten(parts) == parts[0] + parts[1]
  {
    FlattenSnoc(parts, 0);
    FlattenSnoc(parts, 1);
    assert parts[..0] == [];
    assert parts[..2] == parts;
  }

  /** The section split of the whole text. */
  lemma DocSplit(h1: string, x: string, h2: string, y: string, h3: string, z: string,
                 sub: string, body: string, second: string, first: string, after: string, doc: string)
    requires SectionShape(h1) && PlainShape(x) && SectionShape(h2) && PlainShape(y)
    requires SubsectionShape(h3) && PlainShape(z)
    requires sub == h3 + "\n" + z && body == y + "\n" + sub && second == h2 + "\n" + body
    requires first == h1 + "\n" + x && after == x + "\n" + second && doc == h1 + "\n" + after
    ensures SplitAtHeadings(doc, Section) == [first, second]
  {
    SecondUnsplit(h2, y, h3, z, sub, body, second);
    assert second[..4] == h2[..4];
    SectionsOf(h1, x, second, first, after, doc);
  }

  /** The second section's elements. */
  lemma SecondElements(sections: seq<string>, h2: string, y: string, h3: string, z: string,
                       sub: string, body: string, second: string)
    requires SectionShape(h2) && PlainShape(y) && SubsectionShape(h3) && PlainShape(z)
    requires sub == h3 + "\n" + z && body == y + "\n" + sub && second == h2 + "\n" + body
    requires |sections| == 2 && sections[1] == second && sections[0] != second
    ensures ChunkElements(sections, second)
      == [Para(Heading1, h2), Para(Normal, y), Para(Heading2, h3), Para(Normal, z)]
  {
    assert IsStripped(body);
    SecondChunk(sections, h2, body, second);
    SecondBody(y, h3, z, sub, body);
    PrependOne(Para(Heading1, h2), Para(Normal, y), Para(Heading2, h3), Para(Normal, z));
  }

  /** The first section holds one line break and the second more than one, so
      `sections.index` tells them apart whatever their numbers. */
  lemma ChunksDiffer(h1: string, x: string, h2: string, body: string, first: string, second: string)
    requires '\n' !in h1 && '\n' !in x && '\n' !in h2 && '\n' in body
    requires first == h1 + "\n" + x && second == h2 + "\n" + body
    ensures first != second
  {
    FirstLine(h1, x);
    FirstLine(h2, body);
    assert first[LineRun(first) + 1..] == x;
    assert second[LineRun(second) + 1..] == body;
  }

  lemma PrependOne<T>(a: T, b: T, c: T, d: T)
    ensures [a] + [b, c, d] == [a, b, c, d]
  {
  }

  lemma JoinTwoFour<T>(a: T, b: T, c: T, d: T, e: T, f: T)
    ensures [a, b] + [c, d, e, f] == [a, b, c, d, e, f]
  {
  }

  /** Any text made of a section heading line and a line, then a section heading line,
      a line, a subsection heading line and a line, becomes those six paragraphs. */
  lemma TwoSections(h1: string, x: string, h2: string, y: string, h3: string, z: string)
    requires SectionShape(h1) && PlainShape(x) && SectionShape(h2) && PlainShape(y)
    requires SubsectionShape(h3) && PlainShape(z)
    ensures GeneralContent(h1 + "\n" + (x + "\n" + (h2 + "\n" + (y + "\n" + (h3 + "\n" + z))))) ==
      [Para(Heading1, h1), Para(Normal, x), Para(Heading1, h2), Para(Normal, y), Para(Heading2, h3), Para(Normal, z)]
  {
    var sub := h3 + "\n" + z;
    var body := y + "\n" + sub;
    var second := h2 + "\n" + body;
    var first := h1 + "\n" + x;
    var after := x + "\n" + second;
    var doc := h1 + "\n" + after;
    DocSplit(h1, x, h2, y, h3, z, sub, body, second, first, after, doc);
    TwoChunks(doc, first, second);
    var sections := [first, second];
    FirstChunk(sections, h1, x, first);
    assert body[|y|] == '\n';
    ChunksDiffer(h1, x, h2, body, first, second);
    SecondElements(sections, h2, y, h3, z, sub, body, second);
    JoinTwoFour(Para(Heading1, h1), Para(Normal, x), Para(Heading1, h2), Para(Normal, y), Para(Heading2, h3), Para(Normal, z));
  }

  /** The document `1. Purpose`, `Do X.`, `2. Scope`, `Do Y.`, `2.1 Detail`, `Do Z.`
      (one line each) becomes two `Heading 1` sections, the second holding a
      `Heading 2` subsection, with each other line a paragraph of its own. */
  lemma WorkedExample()
    ensures GeneralContent("1. Purpose" + "\n" + ("Do X." + "\n" + ("2. Scope" + "\n" + ("Do Y." + "\n" + ("2.1 Detail" + "\n" + "Do Z."))))) ==
      [ Para(Heading1, "1. Purpose"), Para(Normal, "Do X."),
        Para(Heading1, "2. Scope"), Para(Normal, "Do Y."),
        Para(Heading2, "2.1 Detail"), Para(Normal, "Do Z.") ]
  {
    ExampleShapes();
    TwoSections("1. Purpose", "Do X.", "2. Scope", "Do Y.", "2.1 Detail", "Do Z.");
  }

  /** The lines of the example have the shapes the general lemma asks for. */
  lemma ExampleShapes()
    ensures SectionShape("1. Purpose") && SectionShape("2. Scope") && SubsectionShape("2.1 Detail")
    ensures PlainShape("Do X.") && PlainShape("Do Y.") && PlainShape("Do Z.")
  {
    assert SectionShape("1. Purpose");
    assert SectionShape("2. Scope");
    assert SubsectionShape("2.1 Detail");
  }
}
