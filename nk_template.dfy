/** The fixed NK-cell thawing template: the hard-coded section tree the
    generator writes instead of parsing the generated text. */
module NkTemplate {
  import opened Text
  import opened Clock
  import opened Docx

  const Purpose: string :=
    "This Standard Operating Procedure (SOP) describes the process for thawing Natural Killer (NK) cells while maintaining cell viability and functionality for downstream applications."
  const Scope: string :=
    "This procedure applies to all laboratory personnel involved in the handling and processing of cryopreserved NK cells."
  const Responsibilities: string :=
    "It is the responsibility of all trained laboratory personnel to follow this SOP when thawing NK cells. The Laboratory Supervisor is responsible for ensuring that personnel are properly trained on this procedure."
  const QualityControl: string :=
    "Cell viability should be \U{2265} 70% post-thaw. If viability is consistently below this threshold, review and optimize the freezing and thawing procedures."

  const Materials: seq<string> := [
    "Personal Protective Equipment (PPE): lab coat, gloves, safety glasses",
    "Water bath set to 37\U{B0}C",
    "Timer",
    "70% ethanol spray",
    "Sterile serological pipettes (5 mL, 10 mL, 25 mL)",
    "Pipette controller",
    "Centrifuge tubes (15 mL, 50 mL)",
    "Complete culture medium (pre-warmed to 37\U{B0}C)",
    "Centrifuge",
    "Biosafety cabinet (BSC)",
    "Cell counting equipment (hemocytometer or automated cell counter)",
    "Trypan blue solution (0.4%)",
    "Cryovial containing frozen NK cells"
  ]

  const PrepSteps: seq<string> := [
    "Ensure all required materials and equipment are available.",
    "Turn on the biosafety cabinet and allow it to run for at least 15 minutes before use.",
    "Set the water bath to 37\U{B0}C and verify the temperature with a thermometer.",
    "Pre-warm complete culture medium to 37\U{B0}C.",
    "Label all tubes clearly with the sample information."
  ]

  const ThawSteps: seq<string> := [
    "Remove the cryovial containing NK cells from liquid nitrogen storage and immediately place it into a container with dry ice or a portable LN2 container.",
    "Transport the cryovial to the water bath area.",
    "Partially submerge the cryovial in the 37\U{B0}C water bath, ensuring the cap remains above the water level to prevent contamination.",
    "Gently swirl the vial in the water bath until only a small ice crystal remains (approximately 1-2 minutes).",
    "Spray the outside of the vial with 70% ethanol and transfer it to the biosafety cabinet.",
    "Using a 5 mL serological pipette, slowly transfer the cell suspension to a 15 mL centrifuge tube.",
    "Add pre-warmed complete culture medium dropwise to the cells, starting with 1 mL over the first minute while gently swirling the tube.",
    "Continue adding medium slowly, 1 mL at a time with gentle mixing, until reaching 5 mL total volume.",
    "Add the remaining medium to reach 10 mL total volume.",
    "Centrifuge the cell suspension at 300 \U{D7} g for 5 minutes at room temperature.",
    "Carefully aspirate and discard the supernatant without disturbing the cell pellet.",
    "Gently resuspend the cell pellet in 5-10 mL of fresh pre-warmed complete culture medium."
  ]

  const CountSteps: seq<string> := [
    "Mix 10 \U{3BC}L of cell suspension with 10 \U{3BC}L of 0.4% trypan blue solution.",
    "Load 10 \U{3BC}L of the mixture onto a hemocytometer or use an automated cell counter according to the manufacturer's instructions.",
    "Count the number of viable (unstained) and non-viable (blue-stained) cells.",
    "Calculate the cell concentration and viability percentage.",
    "Record the cell count and viability in the laboratory notebook."
  ]

  const CultureSteps: seq<string> := [
    "Adjust the cell concentration to the required density for your specific application (typically 0.5-1 \U{D7} 10^6 cells/mL).",
    "Transfer the cells to an appropriate culture vessel.",
    "Incubate the cells at 37\U{B0}C, 5% CO2 in a humidified incubator.",
    "Monitor cell recovery and proliferation after 24 hours."
  ]

  const References: seq<string> := [
    "Current Good Manufacturing Practice (cGMP) guidelines",
    "Manufacturer's instructions for equipment and materials used",
    "Laboratory safety manual"
  ]

  const RevisionHeaders: seq<string> := ["Revision Number", "Effective Date", "Description of Changes", "Author"]

  /** The revision-history table: its header row and the initial release. */
  function RevisionRows(now: DateTime): (r: seq<seq<string>>)
    requires now.Valid()
    ensures |r| == 2 && |r[0]| == 4 && |r[1]| == 4
  {
    [RevisionHeaders, ["1.0", IsoDate(now), "Initial release", ""]]
  }

  /** The prose and the lists the template fills into its fixed section tree. */
  datatype Texts = Texts(
    purpose: string, scope: string, responsibilities: string, materials: seq<string>,
    prep: seq<string>, thaw: seq<string>, count: seq<string>, culture: seq<string>,
    qualityControl: string, references: seq<string>)

  /** The NK-cell thawing texts. */
  const NkTexts: Texts := Texts(
    Purpose, Scope, Responsibilities, Materials,
    PrepSteps, ThawSteps, CountSteps, CultureSteps,
    QualityControl, References)

  /** `f"{prefix}{i} "`: the bold number of the `i`-th step of a subsection. */
  function StepLabel(prefix: string, i: nat): string
  {
    prefix + NatToDecimal(i) + " "
  }

  /** One `List Bullet` paragraph per item, in order. */
  function Bullets(items: seq<string>): (r: seq<Element>)
    ensures |r| == |items|
  {
    seq(|items|, k requires 0 <= k < |items| => Para(ListBullet, items[k]))
  }

  /** `for i, step in enumerate(steps, 1)`: the steps numbered from 1 after `prefix`. */
  function Steps(prefix: string, steps: seq<string>): (r: seq<Element>)
    ensures |r| == |steps|
  {
    seq(|steps|, k requires 0 <= k < |steps| => Step(StepLabel(prefix, k + 1), steps[k]))
  }

  /** A `Heading 1` followed by one paragraph of text. */
  function Section(heading: string, text: string): seq<Element>
  {
    [Para(Heading1, heading), Para(Normal, text)]
  }

  /** Sections 1 to 4: three sections of one paragraph each, then the materials list. */
  function Opening(t: Texts): seq<Element>
  {
    Section("1. PURPOSE", t.purpose)
    + Section("2. SCOPE", t.scope)
    + Section("3. RESPONSIBILITIES", t.responsibilities)
    + [Para(Heading1, "4. MATERIALS AND EQUIPMENT")]
    + Bullets(t.materials)
  }

  /** One subsection of section 5: its `Heading 2` and its numbered steps. */
  function Subsection(heading: string, prefix: string, steps: seq<string>): seq<Element>
  {
    [Para(Heading2, heading)] + Steps(prefix, steps)
  }

  /** Section 5: four subsections of numbered steps. */
  function Procedure(t: Texts): seq<Element>
  {
    [Para(Heading1, "5. PROCEDURE")]
    + Subsection("5.1 Preparation", "5.1.", t.prep)
    + Subsection("5.2 Thawing Procedure", "5.2.", t.thaw)
    + Subsection("5.3 Cell Counting and Viability Assessment", "5.3.", t.count)
    + Subsection("5.4 Post-Thaw Culture", "5.4.", t.culture)
  }

  /** Sections 6 to 8: quality control, the references list and the revision history. */
  function Closing(t: Texts, now: DateTime): seq<Element>
    requires now.Valid()
  {
    Section("6. QUALITY CONTROL", t.qualityControl)
    + [Para(Heading1, "7. REFERENCES")]
    + Bullets(t.references)
    + [Para(Heading1, "8. REVISION HISTORY"), Table(RevisionRows(now))]
  }

  /** The section tree filled with the texts `t`. */
  function Fill(t: Texts, now: DateTime): seq<Element>
    requires now.Valid()
  {
    Opening(t) + Procedure(t) + Closing(t, now)
  }

  // ----- views of a body -----

  /** What one element contributes to a view, gathered in document order. */
  function Pick<T>(es: seq<Element>, f: Element -> seq<T>): seq<T>
    decreases |es|
  {
    if es == [] then [] else f(es[0]) + Pick(es[1..], f)
  }

  predicate IsHeading(e: Element)
  {
    e.Para? && (e.style == Heading1 || e.style == Heading2)
  }

  function HeadingOf(e: Element): seq<Element>
  {
    if IsHeading(e) then [e] else []
  }

  function NumberOf(e: Element): seq<string>
  {
    if e.Step? then [e.number] else []
  }

  function BulletOf(e: Element): seq<string>
  {
    if e.Para? && e.style == ListBullet then [e.text] else []
  }

  function RowsOf(e: Element): seq<seq<seq<string>>>
  {
    if e.Table? then [e.rows] else []
  }

  /** The headings of a body, in order: its section tree. */
  function Outline(es: seq<Element>): seq<Element>
  {
    Pick(es, HeadingOf)
  }

  /** The bold numbers of the numbered steps of a body, in order. */
  function StepNumbers(es: seq<Element>): seq<string>
  {
    Pick(es, NumberOf)
  }

  /** The texts of the bulleted paragraphs of a body, in order. */
  function BulletTexts(es: seq<Element>): seq<string>
  {
    Pick(es, BulletOf)
  }

  /** The tables of a body, in order. */
  function Tables(es: seq<Element>): seq<seq<seq<string>>>
  {
    Pick(es, RowsOf)
  }

  lemma {:induction false} PickAppend<T>(a: seq<Element>, b: seq<Element>, f: Element -> seq<T>)
    ensures Pick(a + b, f) == Pick(a, f) + Pick(b, f)
    decreases |a|
  {
    if a == [] {
      assert a + b == b;
    } else {
      assert (a + b)[1..] == a[1..] + b;
      PickAppend(a[1..], b, f);
    }
  }

  lemma PickSingle<T>(e: Element, f: Element -> seq<T>)
    ensures Pick([e], f) == f(e)
  {
    assert [e][1..] == [];
  }

  /** A run of elements that each contribute nothing contributes nothing. */
  lemma {:induction false} PickNothing<T>(es: seq<Element>, f: Element -> seq<T>)
    requires forall i :: 0 <= i < |es| ==> f(es[i]) == []
    ensures Pick(es, f) == []
    decreases |es|
  {
    if es != [] {
      PickNothing(es[1..], f);
    }
  }

  lemma {:induction false} BulletsListItems(items: seq<string>)
    ensures BulletTexts(Bullets(items)) == items
    decreases |items|
  {
    if items != [] {
      assert Bullets(items)[1..] == Bullets(items[1..]);
      BulletsListItems(items[1..]);
    }
  }

  /** The numbers of `Steps(prefix, steps)` from the `from`-th step on. */
  function Labels(prefix: string, from: nat, count: nat): (r: seq<string>)
    ensures |r| == count
    decreases count
  {
    if count == 0 then [] else [StepLabel(prefix, from)] + Labels(prefix, from + 1, count - 1)
  }

  lemma {:induction false} StepsFromNumbers(prefix: string, steps: seq<string>, from: nat)
    requires from <= |steps|
    ensures StepNumbers(Steps(prefix, steps)[from..]) == Labels(prefix, from + 1, |steps| - from)
    decreases |steps| - from
  {
    if from < |steps| {
      assert Steps(prefix, steps)[from..][1..] == Steps(prefix, steps)[from + 1..];
      StepsFromNumbers(prefix, steps, from + 1);
    }
  }

  /** The steps of a subsection are numbered `prefix1 `, `prefix2 `, … in order. */
  lemma StepsNumbers(prefix: string, steps: seq<string>)
    ensures StepNumbers(Steps(prefix, steps)) == Labels(prefix, 1, |steps|)
  {
    StepsFromNumbers(prefix, steps, 0);
    assert Steps(prefix, steps)[0..] == Steps(prefix, steps);
  }

  // ----- each part of the template, element by element -----

  lemma SectionPick<T>(heading: string, text: string, f: Element -> seq<T>)
    ensures Pick(Section(heading, text), f) == f(Para(Heading1, heading)) + f(Para(Normal, text))
  {
    var a, b := Para(Heading1, heading), Para(Normal, text);
    PickSingle(a, f);
    PickSingle(b, f);
    PickAppend([a], [b], f);
    assert [a, b] == [a] + [b];
  }

  lemma SubsectionPick<T>(heading: string, prefix: string, steps: seq<string>, f: Element -> seq<T>)
    ensures Pick(Subsection(heading, prefix, steps), f) == f(Para(Heading2, heading)) + Pick(Steps(prefix, steps), f)
  {
    PickSingle(Para(Heading2, heading), f);
    PickAppend([Para(Heading2, heading)], Steps(prefix, steps), f);
  }

  lemma OpeningPick<T>(t: Texts, f: Element -> seq<T>)
    ensures Pick(Opening(t), f) ==
      Pick(Section("1. PURPOSE", t.purpose), f) + Pick(Section("2. SCOPE", t.scope), f)
      + Pick(Section("3. RESPONSIBILITIES", t.responsibilities), f)
      + f(Para(Heading1, "4. MATERIALS AND EQUIPMENT")) + Pick(Bullets(t.materials), f)
  {
    var s1, s2, s3 := Section("1. PURPOSE", t.purpose), Section("2. SCOPE", t.scope), Section("3. RESPONSIBILITIES", t.responsibilities);
    var h4 := Para(Heading1, "4. MATERIALS AND EQUIPMENT");
    PickSingle(h4, f);
    PickAppend(s1, s2, f);
    PickAppend(s1 + s2, s3, f);
    PickAppend(s1 + s2 + s3, [h4], f);
    PickAppend(s1 + s2 + s3 + [h4], Bullets(t.materials), f);
  }

  lemma ProcedurePick<T>(t: Texts, f: Element -> seq<T>)
    ensures Pick(Procedure(t), f) ==
      f(Para(Heading1, "5. PROCEDURE"))
      + Pick(Subsection("5.1 Preparation", "5.1.", t.prep), f)
      + Pick(Subsection("5.2 Thawing Procedure", "5.2.", t.thaw), f)
      + Pick(Subsection("5.3 Cell Counting and Viability Assessment", "5.3.", t.count), f)
      + Pick(Subsection("5.4 Post-Thaw Culture", "5.4.", t.culture), f)
  {
    var h0 := Para(Heading1, "5. PROCEDURE");
    var s1, s2 := Subsection("5.1 Preparation", "5.1.", t.prep), Subsection("5.2 Thawing Procedure", "5.2.", t.thaw);
    var s3 := Subsection("5.3 Cell Counting and Viability Assessment", "5.3.", t.count);
    var s4 := Subsection("5.4 Post-Thaw Culture", "5.4.", t.culture);
    PickSingle(h0, f);
    PickAppend([h0], s1, f);
    PickAppend([h0] + s1, s2, f);
    PickAppend([h0] + s1 + s2, s3, f);
    PickAppend([h0] + s1 + s2 + s3, s4, f);
  }

  lemma ClosingPick<T>(t: Texts, now: DateTime, f: Element -> seq<T>)
    requires now.Valid()
    ensures Pick(Closing(t, now), f) ==
      Pick(Section("6. QUALITY CONTROL", t.qualityControl), f) + f(Para(Heading1, "7. REFERENCES"))
      + Pick(Bullets(t.references), f)
      + f(Para(Heading1, "8. REVISION HISTORY")) + f(Table(RevisionRows(now)))
  {
    var s6, h7 := Section("6. QUALITY CONTROL", t.qualityControl), Para(Heading1, "7. REFERENCES");
    var h8, tb := Para(Heading1, "8. REVISION HISTORY"), Table(RevisionRows(now));
    PickSingle(h7, f);
    PickSingle(h8, f);
    PickSingle(tb, f);
    PickAppend([h8], [tb], f);
    assert [h8, tb] == [h8] + [tb];
    PickAppend(s6, [h7], f);
    PickAppend(s6 + [h7], Bullets(t.references), f);
    PickAppend(s6 + [h7] + Bullets(t.references), [h8, tb], f);
  }

  lemma FillPick<T>(t: Texts, now: DateTime, f: Element -> seq<T>)
    requires now.Valid()
    ensures Pick(Fill(t, now), f) == Pick(Opening(t), f) + Pick(Procedure(t), f) + Pick(Closing(t, now), f)
  {
    PickAppend(Opening(t), Procedure(t), f);
    PickAppend(Opening(t) + Procedure(t), Closing(t, now), f);
  }

  // ----- the template's views -----

  /** The section tree of a filled template, whatever its texts: eight `Heading 1`
      sections in order, with the four `Heading 2` subsections inside section 5. */
  lemma FillOutline(t: Texts, now: DateTime)
    requires now.Valid()
    ensures Outline(Fill(t, now)) == [
      Para(Heading1, "1. PURPOSE"), Para(Heading1, "2. SCOPE"), Para(Heading1, "3. RESPONSIBILITIES"),
      Para(Heading1, "4. MATERIALS AND EQUIPMENT"), Para(Heading1, "5. PROCEDURE"),
      Para(Heading2, "5.1 Preparation"), Para(Heading2, "5.2 Thawing Procedure"),
      Para(Heading2, "5.3 Cell Counting and Viability Assessment"), Para(Heading2, "5.4 Post-Thaw Culture"),
      Para(Heading1, "6. QUALITY CONTROL"), Para(Heading1, "7. REFERENCES"), Para(Heading1, "8. REVISION HISTORY")]
  {
    OpeningOutline(t);
    ProcedureOutline(t);
    ClosingOutline(t, now);
    var o1, o2, o3 := Outline(Opening(t)), Outline(Procedure(t)), Outline(Closing(t, now));
    FillPick(t, now, HeadingOf);
    assert o1 + o2 + o3 == [o1[0], o1[1], o1[2], o1[3], o2[0], o2[1], o2[2], o2[3], o2[4], o3[0], o3[1], o3[2]];
  }

  lemma OpeningOutline(t: Texts)
    ensures Outline(Opening(t)) == [Para(Heading1, "1. PURPOSE"), Para(Heading1, "2. SCOPE"), Para(Heading1, "3. RESPONSIBILITIES"), Para(Heading1, "4. MATERIALS AND EQUIPMENT")]
  {
    OpeningPick(t, HeadingOf);
    SectionPick("1. PURPOSE", t.purpose, HeadingOf);
    SectionPick("2. SCOPE", t.scope, HeadingOf);
    SectionPick("3. RESPONSIBILITIES", t.responsibilities, HeadingOf);
    PickNothing(Bullets(t.materials), HeadingOf);
  }

  lemma ProcedureOutline(t: Texts)
    ensures Outline(Procedure(t)) == [Para(Heading1, "5. PROCEDURE"), Para(Heading2, "5.1 Preparation"), Para(Heading2, "5.2 Thawing Procedure"),
      Para(Heading2, "5.3 Cell Counting and Viability Assessment"), Para(Heading2, "5.4 Post-Thaw Culture")]
  {
    ProcedurePick(t, HeadingOf);
    SubsectionOutline("5.1 Preparation", "5.1.", t.prep);
    SubsectionOutline("5.2 Thawing Procedure", "5.2.", t.thaw);
    SubsectionOutline("5.3 Cell Counting and Viability Assessment", "5.3.", t.count);
    SubsectionOutline("5.4 Post-Thaw Culture", "5.4.", t.culture);
    var h0, h1, h2 := Para(Heading1, "5. PROCEDURE"), Para(Heading2, "5.1 Preparation"), Para(Heading2, "5.2 Thawing Procedure");
    var h3, h4 := Para(Heading2, "5.3 Cell Counting and Viability Assessment"), Para(Heading2, "5.4 Post-Thaw Culture");
    assert [h0] + [h1] + [h2] + [h3] + [h4] == [h0, h1, h2, h3, h4];
  }

  /** A subsection's only heading is its own. */
  lemma SubsectionOutline(heading: string, prefix: string, steps: seq<string>)
    ensures Outline(Subsection(heading, prefix, steps)) == [Para(Heading2, heading)]
  {
    SubsectionPick(heading, prefix, steps, HeadingOf);
    PickNothing(Steps(prefix, steps), HeadingOf);
  }

  lemma ClosingOutline(t: Texts, now: DateTime)
    requires now.Valid()
    ensures Outline(Closing(t, now)) == [Para(Heading1, "6. QUALITY CONTROL"), Para(Heading1, "7. REFERENCES"), Para(Heading1, "8. REVISION HISTORY")]
  {
    ClosingPick(t, now, HeadingOf);
    SectionPick("6. QUALITY CONTROL", t.qualityControl, HeadingOf);
    PickNothing(Bullets(t.references), HeadingOf);
  }

  /** The numbered steps of a filled template: each subsection numbers its own
      steps from 1, after the subsection's number. */
  lemma FillSteps(t: Texts, now: DateTime)
    requires now.Valid()
    ensures StepNumbers(Fill(t, now)) ==
      Labels("5.1.", 1, |t.prep|) + Labels("5.2.", 1, |t.thaw|) + Labels("5.3.", 1, |t.count|) + Labels("5.4.", 1, |t.culture|)
  {
    FillPick(t, now, NumberOf);
    OpeningSteps(t);
    ProcedureSteps(t);
    ClosingSteps(t, now);
  }

  lemma OpeningSteps(t: Texts)
    ensures StepNumbers(Opening(t)) == []
  {
    OpeningPick(t, NumberOf);
    SectionPick("1. PURPOSE", t.purpose, NumberOf);
    SectionPick("2. SCOPE", t.scope, NumberOf);
    SectionPick("3. RESPONSIBILITIES", t.responsibilities, NumberOf);
    PickNothing(Bullets(t.materials), NumberOf);
  }

  lemma ProcedureSteps(t: Texts)
    ensures StepNumbers(Procedure(t)) ==
      Labels("5.1.", 1, |t.prep|) + Labels("5.2.", 1, |t.thaw|) + Labels("5.3.", 1, |t.count|) + Labels("5.4.", 1, |t.culture|)
  {
    ProcedurePick(t, NumberOf);
    SubsectionPick("5.1 Preparation", "5.1.", t.prep, NumberOf);
    SubsectionPick("5.2 Thawing Procedure", "5.2.", t.thaw, NumberOf);
    SubsectionPick("5.3 Cell Counting and Viability Assessment", "5.3.", t.count, NumberOf);
    SubsectionPick("5.4 Post-Thaw Culture", "5.4.", t.culture, NumberOf);
    StepsNumbers("5.1.", t.prep);
    StepsNumbers("5.2.", t.thaw);
    StepsNumbers("5.3.", t.count);
    StepsNumbers("5.4.", t.culture);
  }

  lemma ClosingSteps(t: Texts, now: DateTime)
    requires now.Valid()
    ensures StepNumbers(Closing(t, now)) == []
  {
    ClosingPick(t, now, NumberOf);
    SectionPick("6. QUALITY CONTROL", t.qualityControl, NumberOf);
    PickNothing(Bullets(t.references), NumberOf);
  }

  /** The bullets of a filled template are its materials followed by its references. */
  lemma FillBullets(t: Texts, now: DateTime)
    requires now.Valid()
    ensures BulletTexts(Fill(t, now)) == t.materials + t.references
  {
    FillPick(t, now, BulletOf);
    OpeningBullets(t);
    ProcedureBullets(t);
    ClosingBullets(t, now);
  }

  lemma OpeningBullets(t: Texts)
    ensures BulletTexts(Opening(t)) == t.materials
  {
    OpeningPick(t, BulletOf);
    SectionPick("1. PURPOSE", t.purpose, BulletOf);
    SectionPick("2. SCOPE", t.scope, BulletOf);
    SectionPick("3. RESPONSIBILITIES", t.responsibilities, BulletOf);
    BulletsListItems(t.materials);
  }

  lemma ProcedureBullets(t: Texts)
    ensures BulletTexts(Procedure(t)) == []
  {
    ProcedurePick(t, BulletOf);
    SubsectionPick("5.1 Preparation", "5.1.", t.prep, BulletOf);
    SubsectionPick("5.2 Thawing Procedure", "5.2.", t.thaw, BulletOf);
    SubsectionPick("5.3 Cell Counting and Viability Assessment", "5.3.", t.count, BulletOf);
    SubsectionPick("5.4 Post-Thaw Culture", "5.4.", t.culture, BulletOf);
    PickNothing(Steps("5.1.", t.prep), BulletOf);
    PickNothing(Steps("5.2.", t.thaw), BulletOf);
    PickNothing(Steps("5.3.", t.count), BulletOf);
    PickNothing(Steps("5.4.", t.culture), BulletOf);
  }

  lemma ClosingBullets(t: Texts, now: DateTime)
    requires now.Valid()
    ensures BulletTexts(Closing(t, now)) == t.references
  {
    ClosingPick(t, now, BulletOf);
    SectionPick("6. QUALITY CONTROL", t.qualityControl, BulletOf);
    BulletsListItems(t.references);
  }

  /** A filled template holds one table, the revision history. */
  lemma FillTables(t: Texts, now: DateTime)
    requires now.Valid()
    ensures Tables(Fill(t, now)) == [RevisionRows(now)]
  {
    FillPick(t, now, RowsOf);
    OpeningTables(t);
    ProcedureTables(t);
    ClosingTables(t, now);
  }

  lemma OpeningTables(t: Texts)
    ensures Tables(Opening(t)) == []
  {
    OpeningPick(t, RowsOf);
    SectionPick("1. PURPOSE", t.purpose, RowsOf);
    SectionPick("2. SCOPE", t.scope, RowsOf);
    SectionPick("3. RESPONSIBILITIES", t.responsibilities, RowsOf);
    PickNothing(Bullets(t.materials), RowsOf);
  }

  lemma ProcedureTables(t: Texts)
    ensures Tables(Procedure(t)) == []
  {
    ProcedurePick(t, RowsOf);
    SubsectionPick("5.1 Preparation", "5.1.", t.prep, RowsOf);
    SubsectionPick("5.2 Thawing Procedure", "5.2.", t.thaw, RowsOf);
    SubsectionPick("5.3 Cell Counting and Viability Assessment", "5.3.", t.count, RowsOf);
    SubsectionPick("5.4 Post-Thaw Culture", "5.4.", t.culture, RowsOf);
    PickNothing(Steps("5.1.", t.prep), RowsOf);
    PickNothing(Steps("5.2.", t.thaw), RowsOf);
    PickNothing(Steps("5.3.", t.count), RowsOf);
    PickNothing(Steps("5.4.", t.culture), RowsOf);
  }

  lemma ClosingTables(t: Texts, now: DateTime)
    requires now.Valid()
    ensures Tables(Closing(t, now)) == [RevisionRows(now)]
  {
    ClosingPick(t, now, RowsOf);
    SectionPick("6. QUALITY CONTROL", t.qualityControl, RowsOf);
    PickNothing(Bullets(t.references), RowsOf);
  }

  /** The NK-cell subsections hold 5, 12, 5 and 4 steps, so with `FillSteps` they are
      numbered `5.1.1 ` to `5.1.5 `, `5.2.1 ` to `5.2.12 `, `5.3.1 ` to `5.3.5 ` and
      `5.4.1 ` to `5.4.4 `. */
  lemma NkStepCounts()
    ensures |PrepSteps| == 5 && |ThawSteps| == 12 && |CountSteps| == 5 && |CultureSteps| == 4
  {
  }

  /** The NK-cell template lists 13 materials and 3 references. */
  lemma NkListCounts()
    ensures |Materials| == 13 && |References| == 3
  {
  }

  /** Within a subsection no two steps share a number. */
  lemma LabelsDistinct(prefix: string, from: nat, count: nat, i: nat, j: nat)
    requires i < j < count
    ensures Labels(prefix, from, count)[i] != Labels(prefix, from, count)[j]
  {
    LabelAt(prefix, from, count, i);
    LabelAt(prefix, from, count, j);
    if StepLabel(prefix, from + i) == StepLabel(prefix, from + j) {
      assert NatToDecimal(from + i) == StepLabel(prefix, from + i)[|prefix|..|StepLabel(prefix, from + i)| - 1];
      assert NatToDecimal(from + j) == StepLabel(prefix, from + j)[|prefix|..|StepLabel(prefix, from + j)| - 1];
      DecimalRoundTrip(from + i);
      DecimalRoundTrip(from + j);
    }
  }

  lemma {:induction false} LabelAt(prefix: string, from: nat, count: nat, i: nat)
    requires i < count
    ensures Labels(prefix, from, count)[i] == StepLabel(prefix, from + i)
    decreases count
  {
    if i > 0 {
      LabelAt(prefix, from + 1, count - 1, i - 1);
    }
  }
}
