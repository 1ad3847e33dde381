/** `WordDocumentGenerator`: builds an SOP as a word-processor document, either by
    cutting free text at its numbered headings or by writing the fixed NK-cell
    thawing template, and names the file after the title and the instant. */
module WordGenerator {
  import opened Wrappers
  import opened Text
  import opened Clock
  import opened Docx
  import opened Sections
  import opened NkTemplate
  import opened Paths

  /** The document type written in the page header. */
  const DocType: string := "Standard Operating Procedure (SOP)"
  /** The title used when none is given and the content names none. */
  const DefaultTitle: string := "Standard Operating Procedure"
  /** `output_dir`'s default. */
  const DefaultOutputDir: string := "generated_docs"

  /** What `doc.save(filepath)` writes: the body, the header table and the footer. */
  datatype SavedDocument = SavedDocument(body: seq<Element>, header: seq<seq<string>>, footer: seq<string>)

  // ----- the title -----

  /** The first position at or after `from` where `p` occurs in `s`. */
  function FindFrom(p: string, s: string, from: nat): (r: Option<nat>)
    requires from <= |s|
    ensures r.Some? ==> from <= r.value && OccursAt(p, s, r.value)
    ensures r.Some? ==> forall k :: from <= k < r.value ==> !OccursAt(p, s, k)
    ensures r.None? ==> forall k :: from <= k ==> !OccursAt(p, s, k)
    decreases |s| - from
  {
    if from + |p| > |s| then None
    else if s[from..from + |p|] == p then Some(from)
    else FindFrom(p, s, from + 1)
  }

  /** `re.search(r"Title:\s*(.*?)(?:\n|$)", content).group(1)`: after the first
      `Title:`, skip whitespace (newlines included) and take the rest of that line. */
  function ExtractTitle(content: string): (r: Option<string>)
    ensures r.Some? ==> '\n' !in r.value
  {
    match FindFrom("Title:", content, 0)
    case None => None
    case Some(i) =>
      var rest := content[i + 6..];
      var start := rest[SpaceRun(rest)..];
      Some(start[..LineRun(start)])
  }

  /** The title the document gets: the given one unless it is missing or empty,
      else the stripped `Title:` line of the content, else the default. */
  function ResolveTitle(title: Option<string>, content: string): (r: string)
    ensures title.Some? && title.value != [] ==> r == title.value
    ensures !(title.Some? && title.value != []) ==> IsStripped(r) && '\n' !in r
  {
    if title.Some? && title.value != [] then title.value
    else
      match ExtractTitle(content)
      case Some(t) => Strip(t)
      case None => DefaultTitle
  }

  // ----- the file name -----

  /** `\w` on ASCII text: a letter, a digit or the underscore. */
  predicate IsWordChar(c: char)
  {
    ('a' <= c <= 'z') || ('A' <= c <= 'Z') || IsDigit(c) || c == '_'
  }

  /** The characters `[^\w\s-]` does not remove. */
  predicate IsSafe(c: char)
  {
    IsWordChar(c) || IsSpace(c) || c == '-'
  }

  /** `re.sub(r'[^\w\s-]', '', s)`. */
  function KeepSafe(s: string): (r: string)
    ensures forall i :: 0 <= i < |r| ==> IsSafe(r[i])
    decreases |s|
  {
    if s == [] then [] else (if IsSafe(s[0]) then [s[0]] else []) + KeepSafe(s[1..])
  }

  /** `s.replace(' ', '_')`. */
  function Underscores(s: string): (r: string)
    ensures |r| == |s|
    ensures forall i :: 0 <= i < |s| ==> r[i] != ' ' && (s[i] != ' ' ==> r[i] == s[i])
  {
    seq(|s|, i requires 0 <= i < |s| => if s[i] == ' ' then '_' else s[i])
  }

  /** `re.sub(r'[^\w\s-]', '', title).strip().replace(' ', '_')`. */
  function Slug(title: string): (r: string)
    ensures forall i :: 0 <= i < |r| ==> IsSafe(r[i]) && r[i] != ' '
    ensures IsStripped(r)
  {
    StripKeepsSafe(KeepSafe(title));
    Underscores(Strip(KeepSafe(title)))
  }

  lemma StripKeepsSafe(s: string)
    requires forall i :: 0 <= i < |s| ==> IsSafe(s[i])
    ensures forall i :: 0 <= i < |Strip(s)| ==> IsSafe(Strip(s)[i])
  {
    var r, a := Strip(s), SpaceRun(s);
    forall i | 0 <= i < |r| ensures IsSafe(r[i]) {
      assert r[i] == s[a + i];
    }
  }

  /** `f"{safe_title}_{timestamp}.docx"`. */
  function FileName(title: string, now: DateTime): (r: string)
    requires now.Valid()
    ensures r != [] && '/' !in r && '\\' !in r
    ensures |r| > 5 && r[|r| - 5..] == ".docx"
    ensures forall i :: 0 <= i < |r| && r[i] == '.' ==> i == |r| - 5
  {
    FileNameShape(Slug(title), Stamp(now));
    Slug(title) + "_" + Stamp(now) + ".docx"
  }

  /** A slug and a stamp joined as a file name: no slash or backslash, and the only
      dot is the one of the `.docx` suffix, so the name cannot climb out of its directory. */
  lemma FileNameShape(slug: string, stamp: string)
    requires forall i :: 0 <= i < |slug| ==> IsSafe(slug[i])
    requires forall i :: 0 <= i < |stamp| ==> stamp[i] == '_' || IsDigit(stamp[i])
    ensures var r := slug + "_" + stamp + ".docx";
      && '/' !in r && '\\' !in r && |r| > 5 && r[|r| - 5..] == ".docx"
      && forall i :: 0 <= i < |r| && r[i] == '.' ==> i == |r| - 5
  {
    var r := slug + "_" + stamp + ".docx";
    forall i | 0 <= i < |r| ensures r[i] != '/' && r[i] != '\\' && (r[i] == '.' ==> i == |r| - 5) {
      if i < |slug| {
        assert r[i] == slug[i];
      } else if i == |slug| {
      } else if i < |slug| + 1 + |stamp| {
        assert r[i] == stamp[i - |slug| - 1];
      } else {
        assert r[i] == ".docx"[i - |slug| - 1 - |stamp|];
      }
    }
    assert r[|r| - 5..] == ".docx";
  }

  // ----- what the document holds -----

  /** The rows of `_add_document_info_table`; an ID that is missing or empty
      becomes `SOP-` and the compact date. */
  function InfoRows(docId: Option<string>, now: DateTime): (r: seq<seq<string>>)
    requires now.Valid()
    ensures |r| == 4 && forall i :: 0 <= i < 4 ==> |r[i]| == 2
  {
    var id := if docId.Some? && docId.value != [] then docId.value else "SOP-" + CompactDate(now);
    [["Document ID:", id], ["Effective Date:", IsoDate(now)], ["Revision Number:", "1.0"], ["Approval Status:", "Draft"]]
  }

  /** The header table of `_add_header`. */
  function HeaderRows(docType: string): seq<seq<string>>
  {
    [["COMPANY LOGO", docType]]
  }

  /** The footer paragraphs of `_add_footer`. */
  function FooterLines(now: DateTime): seq<string>
    requires now.Valid()
  {
    ["Page ", "Generated on " + IsoDate(now) + " | CONFIDENTIAL"]
  }

  /** `template_type and template_type.lower() == "nk_cell_thawing"`. */
  predicate UsesTemplate(templateType: Option<string>)
  {
    templateType.Some? && Lower(templateType.value) == "nk_cell_thawing"
  }

  /** What precedes the content: the header's line break, the title, the
      information table and the empty paragraph after it. */
  function Preamble(title: string, docId: Option<string>, now: DateTime): seq<Element>
    requires now.Valid()
  {
    [Break, Title(title), Table(InfoRows(docId, now)), Para(Normal, "")]
  }

  /** The body `generate_sop_document` builds, the template being filled with `texts`. */
  function SopBody(content: string, title: Option<string>, docId: Option<string>,
                   templateType: Option<string>, texts: Texts, now: DateTime): seq<Element>
    requires now.Valid()
  {
    Preamble(ResolveTitle(title, content), docId, now)
    + (if UsesTemplate(templateType) then Fill(texts, now) else GeneralContent(content))
  }

  // ----- properties of the title and the file name -----

  /** A title is looked for exactly when `Title:` occurs in the content. */
  lemma TitleFound(content: string)
    ensures ExtractTitle(content).Some? <==> IsSubstring("Title:", content)
  {
    SubstringAt("Title:", content);
  }

  /** Without an explicit title, a `Title:` line at the top of the content names the
      document, whatever follows that line and however many blanks precede the name. */
  lemma TitleRoundTrip(t: string, rest: string)
    requires '\n' !in t && !AllSpace(t)
    ensures ResolveTitle(None, "Title: " + t + "\n" + rest) == Strip(t)
    ensures ResolveTitle(Some(""), "Title: " + t + "\n" + rest) == Strip(t)
  {
    TitleLine(t, rest);
    StripLeading(t);
  }

  /** The `Title:` line at the top of the content yields that line without its leading blanks. */
  lemma TitleLine(t: string, rest: string)
    requires '\n' !in t && !AllSpace(t)
    ensures ExtractTitle("Title: " + t + "\n" + rest) == Some(t[SpaceRun(t)..])
  {
    var c := "Title: " + t + "\n" + rest;
    var after := TitleAtStart(c, t + "\n" + rest);
    var a := BlanksBeforeName(t, rest, after);
    NameLine(t, rest, a, after);
  }

  /** After the blanks, the title runs to the end of its line. */
  lemma NameLine(t: string, rest: string, a: nat, after: string)
    requires '\n' !in t && a < |t| && after == [' '] + (t + "\n" + rest)
    ensures after[1 + a..][..LineRun(after[1 + a..])] == t[a..]
  {
    var u := t[a..];
    assert after[1 + a..] == u + "\n" + rest;
    FirstLine(u, rest);
    assert (u + "\n" + rest)[..|u|] == u;
  }

  /** Content that opens with `Title: ` has its title marker at position 0. */
  lemma TitleAtStart(c: string, tail: string) returns (after: string)
    requires c == "Title: " + tail
    ensures FindFrom("Title:", c, 0) == Some(0) && after == c[6..] && after == [' '] + tail
  {
    assert c[0..6] == "Title:";
    after := c[6..];
  }

  /** The blank after `Title:` and the leading blanks of the name are skipped together. */
  lemma BlanksBeforeName(t: string, rest: string, after: string) returns (a: nat)
    requires !AllSpace(t) && after == [' '] + (t + "\n" + rest)
    ensures a == SpaceRun(t) < |t| && SpaceRun(after) == 1 + a
  {
    a := SpaceRun(t);
    var start := t + "\n" + rest;
    assert after[1..] == start;
    assert start[..|t|] == t[..|t|];
    RunAgree(IsSpace, t, start, |t|);
  }

  /** Removing the unsafe characters, stripping and replacing spaces leaves a slug unchanged. */
  lemma SlugIdempotent(title: string)
    ensures Slug(Slug(title)) == Slug(title)
  {
    var x := Slug(title);
    KeepSafeKeeps(x);
    StripStripped(x);
    assert Underscores(x) == x;
  }

  lemma {:induction false} KeepSafeKeeps(s: string)
    requires forall i :: 0 <= i < |s| ==> IsSafe(s[i])
    ensures KeepSafe(s) == s
    decreases |s|
  {
    if s != [] {
      KeepSafeKeeps(s[1..]);
      assert [s[0]] + s[1..] == s;
    }
  }

  /** Two documents get the same file name exactly when their titles have the same slug
      and they were generated in the same second. */
  lemma FileNameInjective(t1: string, a: DateTime, t2: string, b: DateTime)
    requires a.Valid() && b.Valid()
    ensures FileName(t1, a) == FileName(t2, b) <==> Slug(t1) == Slug(t2) && a == b
  {
    var n1, n2 := FileName(t1, a), FileName(t2, b);
    if n1 == n2 {
      var k := |Slug(t1)|;
      assert |Slug(t2)| == k;
      assert n1[..k] == Slug(t1) && n2[..k] == Slug(t2);
      assert n1[k + 1..k + 16] == Stamp(a) && n2[k + 1..k + 16] == Stamp(b);
      StampInjective(a, b);
    }
  }

  /** The saved file's base name is the generated file name, whatever the directory. */
  lemma SavedUnderFileName(dir: string, title: string, now: DateTime)
    requires now.Valid()
    ensures Basename(JoinPath(dir, FileName(title, now))) == FileName(title, now)
  {
    BasenameOfJoin(dir, FileName(title, now));
  }

  // ----- properties of the document -----

  /** The default document ID, the effective date, the footer's date and the file
      name's timestamp all render the same day. */
  lemma DatesAgree(docId: Option<string>, now: DateTime)
    requires now.Valid()
    ensures InfoRows(None, now)[0][1] == "SOP-" + Stamp(now)[..8]
    ensures InfoRows(docId, now)[1][1] == IsoDate(now) == FooterLines(now)[1][13..23]
    ensures IsoDate(now) == CompactDate(now)[..4] + "-" + CompactDate(now)[4..6] + "-" + CompactDate(now)[6..]
  {
    StampDate(now);
    IsoFromCompact(now);
  }

  /** The preamble holds no heading, no step, no bullet and one table. */
  lemma PreamblePick<T>(title: string, docId: Option<string>, now: DateTime, f: Element -> seq<T>)
    requires now.Valid()
    ensures Pick(Preamble(title, docId, now), f)
      == f(Break) + f(Title(title)) + f(Table(InfoRows(docId, now))) + f(Para(Normal, ""))
  {
    var p := Preamble(title, docId, now);
    assert p == [Break] + [Title(title)] + [Table(InfoRows(docId, now))] + [Para(Normal, "")];
    PickAppend([Break] + [Title(title)] + [Table(InfoRows(docId, now))], [Para(Normal, "")], f);
    PickAppend([Break] + [Title(title)], [Table(InfoRows(docId, now))], f);
    PickAppend([Break], [Title(title)], f);
    PickSingle(Break, f);
    PickSingle(Title(title), f);
    PickSingle(Table(InfoRows(docId, now)), f);
    PickSingle(Para(Normal, ""), f);
  }

  /** A template document: after the title and the information table comes exactly
      the filled template, so its section tree, its step numbers and its bullets are
      the template's, and it has two tables, the information table and the revision
      history. */
  lemma TemplateDocument(content: string, title: Option<string>, docId: Option<string>,
                         templateType: Option<string>, t: Texts, now: DateTime)
    requires now.Valid() && UsesTemplate(templateType)
    ensures var body := SopBody(content, title, docId, templateType, t, now);
      && body[1] == Title(ResolveTitle(title, content))
      && Outline(body) == Outline(Fill(t, now))
      && StepNumbers(body) == StepNumbers(Fill(t, now))
      && BulletTexts(body) == t.materials + t.references
      && Tables(body) == [InfoRows(docId, now), RevisionRows(now)]
  {
    var p := Preamble(ResolveTitle(title, content), docId, now);
    var f := Fill(t, now);
    PickAppend(p, f, HeadingOf);
    PickAppend(p, f, NumberOf);
    PickAppend(p, f, BulletOf);
    PickAppend(p, f, RowsOf);
    PreamblePick(ResolveTitle(title, content), docId, now, HeadingOf);
    PreamblePick(ResolveTitle(title, content), docId, now, NumberOf);
    PreamblePick(ResolveTitle(title, content), docId, now, BulletOf);
    PreamblePick(ResolveTitle(title, content), docId, now, RowsOf);
    FillBullets(t, now);
    FillTables(t, now);
  }

  /** A free-text document: the title, then the information table, which is its only
      table, then the parsed content. */
  lemma GeneralDocument(content: string, title: Option<string>, docId: Option<string>,
                        templateType: Option<string>, t: Texts, now: DateTime)
    requires now.Valid() && !UsesTemplate(templateType)
    ensures var body := SopBody(content, title, docId, templateType, t, now);
      && |body| >= 4 && body[1] == Title(ResolveTitle(title, content))
      && Tables(body) == [InfoRows(docId, now)]
  {
    var p := Preamble(ResolveTitle(title, content), docId, now);
    PickAppend(p, GeneralContent(content), RowsOf);
    PreamblePick(ResolveTitle(title, content), docId, now, RowsOf);
    ContentHasNoTable(content);
  }

  /** The parsed content of a free-text document drops only whitespace from the
      content and never puts a `Heading 2` before the first `Heading 1`. */
  lemma GeneralContentKept(content: string, title: Option<string>, docId: Option<string>,
                           templateType: Option<string>, t: Texts, now: DateTime)
    requires now.Valid() && !UsesTemplate(templateType)
    ensures var body := SopBody(content, title, docId, templateType, t, now);
      && |body| >= 4
      && NoSpace(TextOf(body[4..])) == NoSpace(content)
      && SubheadingsFollowHeadings(body[4..])
  {
    var p := Preamble(ResolveTitle(title, content), docId, now);
    var g := GeneralContent(content);
    assert (p + g)[4..] == g;
    OnlyWhitespaceDropped(content);
    NoSubheadingBeforeHeading(content);
  }

  /** The parsed content holds paragraphs only. */
  lemma ContentHasNoTable(content: string)
    ensures Pick(GeneralContent(content), RowsOf) == []
  {
    var g := GeneralContent(content);
    ContentClean(content);
    forall i | 0 <= i < |g| ensures RowsOf(g[i]) == [] {
      assert g[i] in g;
    }
    PickNothing(g, RowsOf);
  }

  /** Sections 1 to 4 as `_add_nk_cell_thawing_template` appends them, one call at a time. */
  lemma OpeningBuilt(b0: seq<Element>, b1: seq<Element>, b2: seq<Element>, b3: seq<Element>,
                     b4: seq<Element>, b5: seq<Element>, t: Texts)
    requires b1 == b0 + [Para(Heading1, "1. PURPOSE")] + [Para(Normal, t.purpose)]
    requires b2 == b1 + [Para(Heading1, "2. SCOPE")] + [Para(Normal, t.scope)]
    requires b3 == b2 + [Para(Heading1, "3. RESPONSIBILITIES")] + [Para(Normal, t.responsibilities)]
    requires b4 == b3 + [Para(Heading1, "4. MATERIALS AND EQUIPMENT")]
    requires b5 == b4 + Bullets(t.materials)
    ensures b5 == b0 + Opening(t)
  {
  }

  /** Section 5 as it is appended: the heading, then each subsection's heading and steps. */
  lemma ProcedureBuilt(c0: seq<Element>, c1: seq<Element>, c2: seq<Element>, c3: seq<Element>,
                       c4: seq<Element>, c5: seq<Element>, c6: seq<Element>, c7: seq<Element>,
                       c8: seq<Element>, t: Texts)
    requires c1 == c0 + [Para(Heading1, "5. PROCEDURE")] + [Para(Heading2, "5.1 Preparation")]
    requires c2 == c1 + NkTemplate.Steps("5.1.", t.prep)
    requires c3 == c2 + [Para(Heading2, "5.2 Thawing Procedure")]
    requires c4 == c3 + NkTemplate.Steps("5.2.", t.thaw)
    requires c5 == c4 + [Para(Heading2, "5.3 Cell Counting and Viability Assessment")]
    requires c6 == c5 + NkTemplate.Steps("5.3.", t.count)
    requires c7 == c6 + [Para(Heading2, "5.4 Post-Thaw Culture")]
    requires c8 == c7 + NkTemplate.Steps("5.4.", t.culture)
    ensures c8 == c0 + Procedure(t)
  {
  }

  /** Sections 6 to 8 as they are appended. */
  lemma ClosingBuilt(d0: seq<Element>, d1: seq<Element>, d2: seq<Element>, d3: seq<Element>,
                     t: Texts, now: DateTime)
    requires now.Valid()
    requires d1 == d0 + [Para(Heading1, "6. QUALITY CONTROL")] + [Para(Normal, t.qualityControl)]
                      + [Para(Heading1, "7. REFERENCES")]
    requires d2 == d1 + Bullets(t.references)
    requires d3 == d2 + [Para(Heading1, "8. REVISION HISTORY")] + [Table(RevisionRows(now))]
    ensures d3 == d0 + Closing(t, now)
  {
  }

  /** The three parts together make the whole template. */
  lemma FillBuilt(b0: seq<Element>, c0: seq<Element>, d0: seq<Element>, e0: seq<Element>,
                  t: Texts, now: DateTime)
    requires now.Valid()
    requires c0 == b0 + Opening(t) && d0 == c0 + Procedure(t) && e0 == d0 + Closing(t, now)
    ensures e0 == b0 + Fill(t, now)
  {
    AppendAssoc(b0, Opening(t), Procedure(t));
    AppendAssoc(b0, Opening(t) + Procedure(t), Closing(t, now));
  }

  class WordDocumentGenerator {
    /** The directory the documents are saved in. */
    const outputDir: string
    /** The texts the NK-cell template writes. */
    const nkTexts: Texts

    /** `WordDocumentGenerator(output_dir)`; creating the directory is not modelled. */
    constructor (outputDir: string)
      ensures this.outputDir == outputDir && nkTexts == NkTexts
    {
      this.outputDir := outputDir;
      nkTexts := NkTexts;
    }

    /** `generate_sop_document`: the path the document is saved under, and what is saved. */
    method GenerateSopDocument(content: string, title: Option<string>, docId: Option<string>,
                               templateType: Option<string>, now: DateTime)
      returns (filepath: string, saved: SavedDocument)
      requires now.Valid()
      ensures filepath == JoinPath(outputDir, FileName(ResolveTitle(title, content), now))
      ensures saved.body == SopBody(content, title, docId, templateType, nkTexts, now)
      ensures saved.header == HeaderRows(DocType) && saved.footer == FooterLines(now)
    {
      var doc := new Document();
      AddHeader(doc, DocType);
      var resolved := ResolveTitle(title, content);
      doc.AddTitle(resolved);
      AddDocumentInfoTable(doc, docId, now);
      ghost var preamble := doc.body;
      assert preamble == Preamble(resolved, docId, now);
      if UsesTemplate(templateType) {
        AddNkCellThawingTemplate(doc, content, now);
      } else {
        AddGeneralContent(doc, content);
      }
      AddFooter(doc, now);
      var filename := FileName(resolved, now);
      filepath := JoinPath(outputDir, filename);
      saved := SavedDocument(doc.body, doc.header, doc.footer);
    }

    /** `_add_header`: the header table, and a paragraph holding a line break. */
    method AddHeader(doc: Document, docType: string)
      modifies doc
      ensures doc.header == HeaderRows(docType)
      ensures doc.body == old(doc.body) + [Break] && doc.footer == old(doc.footer)
    {
      doc.SetHeaderTable(HeaderRows(docType));
      doc.AddBreak();
    }

    /** `_add_document_info_table`: the four-row table and an empty paragraph. */
    method AddDocumentInfoTable(doc: Document, docId: Option<string>, now: DateTime)
      requires now.Valid()
      modifies doc
      ensures doc.body == old(doc.body) + [Table(InfoRows(docId, now)), Para(Normal, "")]
      ensures doc.header == old(doc.header) && doc.footer == old(doc.footer)
    {
      doc.AddTable(InfoRows(docId, now));
      doc.AddParagraph(Normal, "");
    }

    /** `for line in text.split('\n'): if line.strip(): doc.add_paragraph(line.strip())`. */
    method AddLines(doc: Document, text: string)
      modifies doc
      ensures doc.body == old(doc.body) + Paragraphs(text)
      ensures doc.header == old(doc.header) && doc.footer == old(doc.footer)
    {
      AddLineList(doc, SplitOn(text, '\n'));
    }

    /** The loop of `AddLines`, over the lines already cut at the newlines. */
    method AddLineList(doc: Document, lines: seq<string>)
      modifies doc
      ensures doc.body == old(doc.body) + LineParas(lines)
      ensures doc.header == old(doc.header) && doc.footer == old(doc.footer)
    {
      ghost var start := doc.body;
      var i := 0;
      while i < |lines|
        invariant 0 <= i <= |lines|
        invariant doc.body == start + LineParas(lines[..i])
        invariant doc.header == old(doc.header) && doc.footer == old(doc.footer)
      {
        ghost var done := LineParas(lines[..i]);
        var line := Strip(lines[i]);
        if line != [] {
          doc.AddParagraph(Normal, line);
        }
        assert doc.body == start + done + LinePara(lines[i]);
        LineParasSnoc(lines, i);
        AppendAssoc(start, done, LinePara(lines[i]));
        i := i + 1;
      }
      assert lines[..|lines|] == lines;
    }

    /** The subsection loop of `_add_general_content`, over the text under one heading. */
    method AddSectionBody(doc: Document, body: string)
      modifies doc
      ensures doc.body == old(doc.body) + SectionBody(body)
      ensures doc.header == old(doc.header) && doc.footer == old(doc.footer)
    {
      AddSubsections(doc, SplitAtHeadings(body, Subsection));
    }

    /** The loop of `AddSectionBody`, over the pieces already cut at the subsection headings. */
    method AddSubsections(doc: Document, subsections: seq<string>)
      modifies doc
      ensures doc.body == old(doc.body) + SubsectionsOf(subsections)
      ensures doc.header == old(doc.header) && doc.footer == old(doc.footer)
    {
      ghost var start := doc.body;
      var k := 0;
      while k < |subsections|
        invariant 0 <= k <= |subsections|
        invariant doc.body == start + SubsectionsOf(subsections[..k])
        invariant doc.header == old(doc.header) && doc.footer == old(doc.footer)
      {
        ghost var done := SubsectionsOf(subsections[..k]);
        AddSubsection(doc, subsections[k]);
        SubsectionsOfSnoc(subsections, k);
        AppendAssoc(start, done, SubsectionElements(subsections[k]));
        k := k + 1;
      }
      assert subsections[..|subsections|] == subsections;
    }

    /** One subsection: its heading as a level-2 heading and its lines, or only its lines. */
    method AddSubsection(doc: Document, subsection: string)
      modifies doc
      ensures doc.body == old(doc.body) + SubsectionElements(subsection)
      ensures doc.header == old(doc.header) && doc.footer == old(doc.footer)
    {
      ghost var start := doc.body;
      var heading := HeadingLine(subsection, Subsection);
      if heading.None? {
        AddLines(doc, subsection);
        UnheadedSubsection(subsection);
      } else {
        var subtitle := Strip(heading.value);
        doc.AddParagraph(Heading2, subtitle);
        var subcontent := Strip(subsection[|subtitle|..]);
        HeadedSubsection(subsection, subtitle, subcontent);
        if subcontent != [] {
          AddLines(doc, subcontent);
          AppendAssoc(start, [Para(Heading2, subtitle)], Paragraphs(subcontent));
        } else {
          assert [Para(Heading2, subtitle)] + [] == [Para(Heading2, subtitle)];
        }
      }
    }

    /** `_add_general_content`: each chunk of the content, cut at its section headings. */
    method AddGeneralContent(doc: Document, content: string)
      modifies doc
      ensures doc.body == old(doc.body) + GeneralContent(content)
      ensures doc.header == old(doc.header) && doc.footer == old(doc.footer)
    {
      AddChunks(doc, SplitAtHeadings(content, Section));
    }

    /** The loop of `AddGeneralContent`, over the chunks already cut at the section headings. */
    method AddChunks(doc: Document, sections: seq<string>)
      modifies doc
      ensures doc.body == old(doc.body) + ChunksOf(sections, |sections|)
      ensures doc.header == old(doc.header) && doc.footer == old(doc.footer)
    {
      ghost var start := doc.body;
      var i := 0;
      while i < |sections|
        invariant 0 <= i <= |sections|
        invariant doc.body == start + ChunksOf(sections, i)
        invariant doc.header == old(doc.header) && doc.footer == old(doc.footer)
      {
        ghost var done := ChunksOf(sections, i);
        AddChunk(doc, sections, sections[i]);
        ChunksOfSnoc(sections, i);
        AppendAssoc(start, done, ChunkElements(sections, sections[i]));
        i := i + 1;
      }
    }

    /** One chunk: a leading chunk without a heading as lines, otherwise its heading
        as a level-1 heading and its subsections. */
    method AddChunk(doc: Document, sections: seq<string>, section: string)
      modifies doc
      ensures doc.body == old(doc.body) + ChunkElements(sections, section)
      ensures doc.header == old(doc.header) && doc.footer == old(doc.footer)
    {
      ghost var start := doc.body;
      var heading := HeadingLine(section, Section);
      if IndexOf(sections, section) == 0 && !StartsHeading(Strip(section), Section) {
        AddLines(doc, section);
        UnheadedChunk(sections, section);
      } else if heading.None? {
        AddLines(doc, section);
        UnheadedChunk(sections, section);
      } else {
        var title := Strip(heading.value);
        doc.AddParagraph(Heading1, title);
        var body := Strip(section[|title|..]);
        HeadedChunk(sections, section, title, body);
        if body != [] {
          AddSectionBody(doc, body);
          AppendAssoc(start, [Para(Heading1, title)], SectionBody(body));
        } else {
          assert [Para(Heading1, title)] + [] == [Para(Heading1, title)];
        }
      }
    }

    /** `for item in items: doc.add_paragraph(style='List Bullet').add_run(item)`. */
    method AddBullets(doc: Document, items: seq<string>)
      modifies doc
      ensures doc.body == old(doc.body) + Bullets(items)
      ensures doc.header == old(doc.header) && doc.footer == old(doc.footer)
    {
      var i := 0;
      while i < |items|
        invariant 0 <= i <= |items|
        invariant doc.body == old(doc.body) + Bullets(items)[..i]
        invariant doc.header == old(doc.header) && doc.footer == old(doc.footer)
      {
        doc.AddParagraph(ListBullet, items[i]);
        assert Bullets(items)[..i + 1] == Bullets(items)[..i] + [Para(ListBullet, items[i])];
        i := i + 1;
      }
      assert Bullets(items)[..|items|] == Bullets(items);
    }

    /** `for i, step in enumerate(steps, 1)`: a bold `f"{prefix}{i} "` run, then the step. */
    method AddSteps(doc: Document, prefix: string, steps: seq<string>)
      modifies doc
      ensures doc.body == old(doc.body) + NkTemplate.Steps(prefix, steps)
      ensures doc.header == old(doc.header) && doc.footer == old(doc.footer)
    {
      var i := 0;
      while i < |steps|
        invariant 0 <= i <= |steps|
        invariant doc.body == old(doc.body) + NkTemplate.Steps(prefix, steps)[..i]
        invariant doc.header == old(doc.header) && doc.footer == old(doc.footer)
      {
        doc.AddStep(StepLabel(prefix, i + 1), steps[i]);
        assert NkTemplate.Steps(prefix, steps)[..i + 1]
          == NkTemplate.Steps(prefix, steps)[..i] + [Step(StepLabel(prefix, i + 1), steps[i])];
        i := i + 1;
      }
      assert NkTemplate.Steps(prefix, steps)[..|steps|] == NkTemplate.Steps(prefix, steps);
    }

    /** `_add_nk_cell_thawing_template`: the fixed section tree; `content` is not read. */
    method AddNkCellThawingTemplate(doc: Document, content: string, now: DateTime)
      requires now.Valid()
      modifies doc
      ensures doc.body == old(doc.body) + Fill(nkTexts, now)
      ensures doc.header == old(doc.header) && doc.footer == old(doc.footer)
    {
      var t := nkTexts;
      ghost var b0 := doc.body;
      doc.AddParagraph(Heading1, "1. PURPOSE");
      doc.AddParagraph(Normal, t.purpose);
      ghost var b1 := doc.body;
      doc.AddParagraph(Heading1, "2. SCOPE");
      doc.AddParagraph(Normal, t.scope);
      ghost var b2 := doc.body;
      doc.AddParagraph(Heading1, "3. RESPONSIBILITIES");
      doc.AddParagraph(Normal, t.responsibilities);
      ghost var b3 := doc.body;
      doc.AddParagraph(Heading1, "4. MATERIALS AND EQUIPMENT");
      ghost var b4 := doc.body;
      AddBullets(doc, t.materials);
      OpeningBuilt(b0, b1, b2, b3, b4, doc.body, t);
      ghost var c0 := doc.body;
      doc.AddParagraph(Heading1, "5. PROCEDURE");
      doc.AddParagraph(Heading2, "5.1 Preparation");
      ghost var c1 := doc.body;
      AddSteps(doc, "5.1.", t.prep);
      ghost var c2 := doc.body;
      doc.AddParagraph(Heading2, "5.2 Thawing Procedure");
      ghost var c3 := doc.body;
      AddSteps(doc, "5.2.", t.thaw);
      ghost var c4 := doc.body;
      doc.AddParagraph(Heading2, "5.3 Cell Counting and Viability Assessment");
      ghost var c5 := doc.body;
      AddSteps(doc, "5.3.", t.count);
      ghost var c6 := doc.body;
      doc.AddParagraph(Heading2, "5.4 Post-Thaw Culture");
      ghost var c7 := doc.body;
      AddSteps(doc, "5.4.", t.culture);
      ProcedureBuilt(c0, c1, c2, c3, c4, c5, c6, c7, doc.body, t);
      ghost var d0 := doc.body;
      doc.AddParagraph(Heading1, "6. QUALITY CONTROL");
      doc.AddParagraph(Normal, t.qualityControl);
      doc.AddParagraph(Heading1, "7. REFERENCES");
      ghost var d1 := doc.body;
      AddBullets(doc, t.references);
      ghost var d2 := doc.body;
      doc.AddParagraph(Heading1, "8. REVISION HISTORY");
      doc.AddTable(RevisionRows(now));
      ClosingBuilt(d0, d1, d2, doc.body, t, now);
      FillBuilt(b0, c0, d0, doc.body, t, now);
    }

    /** `_add_footer`: the page paragraph, then the generation date. */
    method AddFooter(doc: Document, now: DateTime)
      requires now.Valid()
      modifies doc
      ensures doc.footer == old(doc.footer) + FooterLines(now)
      ensures doc.body == old(doc.body) && doc.header == old(doc.header)
    {
      doc.AddFooterParagraph("Page ");
      doc.AddFooterParagraph("Generated on " + IsoDate(now) + " | CONFIDENTIAL");
    }
  }
}
