/** The direct-text PDF export `generatePDFFromData`: a cursor moving down A4 pages, a
    page break whenever a requested height would cross the bottom margin, and each `addText`
    call moving the cursor down by its wrapped height. The jsPDF document becomes a `Layout`
    object holding the page count, the blocks placed so far and the cursor `currentY`.
    Lengths are integers in units of 0.2 mm, so 1 mm is 5 units and a line of `size` points
    (`size × 0.4` mm) is `2 × size` units. How many lines a text wraps to is jsPDF's
    `splitTextToSize`; it is the `lineCount` function the layout is created with. */
module PdfLayout {
  import opened ResumeData
  import opened PdfText
  import opened Seqs
  import JsText

  const PageHeight := 1485                      // 297 mm
  const Margin := 100                           // 20 mm
  const Bottom := PageHeight - Margin           // the lowest position text may start at without a break
  const ContentHeight := PageHeight - 2 * Margin

  /** `x` millimetres in layout units. */
  function Mm(x: nat): nat { 5 * x }

  /** The height of `lines` wrapped lines at `size` points: `lines × size × 0.4` mm. */
  function TextHeight(lines: nat, size: nat): nat { 2 * lines * size }

  /** One block placed on the document: the page it is on (0 is the first), the position of
      its top and the height the cursor moved past it. */
  datatype Placed = Placed(page: nat, y: int, block: Block, height: nat)

  /** `a` ends before `b` starts in reading order: on an earlier page, or higher up on the
      same page without overlapping it. */
  predicate Before(a: Placed, b: Placed) {
    a.page < b.page || (a.page == b.page && a.y + a.height <= b.y)
  }

  /** Each block comes after the one placed before it. */
  predicate InOrder(ops: seq<Placed>) {
    forall i :: 0 < i < |ops| ==> Before(ops[i - 1], ops[i])
  }

  /** The cursor after `checkNewPage(h)`: it stays where it is when `h` more still fits above
      the bottom margin and goes to the top margin of a new page otherwise. Either way, a
      height no taller than the content area then fits. */
  function CheckY(y: int, h: nat): (r: int)
    ensures r == y || r == Margin
    ensures y + h <= Bottom ==> r == y
    ensures h <= ContentHeight ==> r + h <= Bottom
  {
    if y + h > Bottom then Margin else y
  }

  /** Ordering between neighbours carries over to every pair: the export never writes a
      block above or over one it wrote earlier on the same page, nor on an earlier page. */
  lemma {:induction false} InOrderAll(ops: seq<Placed>)
    requires InOrder(ops)
    ensures forall i, j :: 0 <= i < j < |ops| ==> Before(ops[i], ops[j])
  {
    if |ops| > 1 {
      var front := ops[..|ops| - 1];
      assert InOrder(front) by {
        forall i | 0 < i < |front| ensures Before(front[i - 1], front[i]) {
          assert front[i - 1] == ops[i - 1] && front[i] == ops[i];
        }
      }
      InOrderAll(front);
      forall i, j | 0 <= i < j < |ops| ensures Before(ops[i], ops[j]) {
        if j < |ops| - 1 {
          assert ops[i] == front[i] && ops[j] == front[j];
        } else if i < j - 1 {
          assert ops[i] == front[i] && ops[j - 1] == front[j - 1];
          assert Before(ops[i], ops[j - 1]) && Before(ops[j - 1], ops[j]);
        }
      }
    }
  }

  /** The height `checkNewPage` asks for before a section heading. */
  function HeadingCheck(k: Kind): nat {
    if k == LanguageKind then Mm(15) else Mm(20)
  }

  /** The height `checkNewPage` asks for before each entry. */
  function EntryCheck(k: Kind): nat {
    if k == LanguageKind then Mm(10) else Mm(15)
  }

  /** The space left after each entry. */
  function EntryGap(k: Kind): nat {
    if k == LanguageKind then Mm(3) else Mm(5)
  }


  // ---------------------------------------------------------------------------------------
  // The export as a function of the record

  /** `splitTextToSize(text, contentWidth).length` at a font size and style. */
  type LineCount = (string, nat, Style) -> nat

  /** The document as a value: the page being written (0 is the first), the blocks placed so
      far and the cursor `currentY`. */
  datatype Doc = Doc(page: nat, ops: seq<Placed>, y: int)

  /** The height the cursor moves past a block: its wrapped text height; a rule takes none. */
  function Height(lc: LineCount, b: Block): nat {
    match b
    case Text(t, size, style) => TextHeight(lc(t, size, style), size)
    case Rule => 0
  }

  /** `addText` or `addLine`: the block goes on the current page at the cursor, which moves
      past it. */
  function Put(lc: LineCount, d: Doc, b: Block): (r: Doc)
    ensures r.page == d.page && d.ops <= r.ops && |r.ops| == |d.ops| + 1
    ensures r.ops[|d.ops|].block == b && r.ops[|d.ops|].page == d.page && r.ops[|d.ops|].y == d.y
    ensures r.y == d.y + r.ops[|d.ops|].height
  {
    var h := Height(lc, b);
    Doc(d.page, d.ops + [Placed(d.page, d.y, b, h)], d.y + h)
  }

  /** Blocks written one under the other on the current page, with no page break between
      them. */
  function PutAll(lc: LineCount, d: Doc, bs: seq<Block>): (r: Doc)
    ensures d.ops <= r.ops && |r.ops| == |d.ops| + |bs| && r.page == d.page
    decreases |bs|
  {
    if bs == [] then d else PutAll(lc, Put(lc, d, bs[0]), bs[1..])
  }

  /** `currentY += n`. */
  function Advance(d: Doc, n: nat): (r: Doc)
    ensures r.page == d.page && r.ops == d.ops && r.y - d.y == n
  {
    d.(y := d.y + n)
  }

  /** `checkNewPage(h)`: a new page, with the cursor at the top margin, exactly when `h` more
      would cross the bottom margin. */
  function Checked(d: Doc, h: nat): (r: Doc)
    ensures r.ops == d.ops
    ensures r.page == d.page + 1 <==> d.y + h > Bottom
    ensures r.page == d.page <==> d.y + h <= Bottom
    ensures r.page == d.page ==> r.y == d.y
    ensures r.page != d.page ==> r.y == Margin
    ensures h <= ContentHeight ==> r.y + h <= Bottom
  {
    Doc(if d.y + h > Bottom then d.page + 1 else d.page, d.ops, CheckY(d.y, h))
  }

  /** The header: the full name in 20-point bold and 5 mm, when there is a name. It stays on
      the first page's current position and only appends. */
  function HeaderDoc(lc: LineCount, d: Doc, p: Fields): (r: Doc)
    ensures d.ops <= r.ops && r.page == d.page
    ensures |r.ops| == |d.ops| + |HeaderBlocks(p)|
  {
    var name := FullName(p);
    if name == "" then d else Advance(Put(lc, d, Text(name, 20, Bold)), Mm(5))
  }

  /** A 10-point line, 10 mm, a rule across the page and 10 mm: the rule sits 10 mm under
      the end of the line, on the same page. */
  function LineRuleDoc(lc: LineCount, d: Doc, line: string): (r: Doc)
    ensures d.ops <= r.ops && r.page == d.page && |r.ops| == |d.ops| + 2
    ensures r.ops[|d.ops| + 1].y == r.ops[|d.ops|].y + r.ops[|d.ops|].height + Mm(10)
  {
    var d1 := Advance(Put(lc, d, Text(line, 10, Normal)), Mm(10));
    Advance(Put(lc, d1, Rule), Mm(10))
  }

  /** The contact line and its rule, when a contact property is filled in. */
  function ContactDoc(lc: LineCount, d: Doc, p: Fields): (r: Doc)
    ensures d.ops <= r.ops && r.page == d.page
    ensures |r.ops| == |d.ops| + |ContactBlocks(p)|
  {
    if ContactParts(p) == [] then d else LineRuleDoc(lc, d, ContactLine(p))
  }

  /** A 14-point heading after a break check for `room`, 5 mm, an 11-point body and 10 mm:
      the shape of the summary and of the skills. The heading starts where `room` fits above
      the bottom margin, on a new page exactly when it did not fit at the cursor. */
  function HeadedDoc(lc: LineCount, d: Doc, room: nat, heading: string, body: string): (r: Doc)
    requires room <= ContentHeight
    ensures d.ops <= r.ops && |r.ops| == |d.ops| + 2
    ensures r.ops[|d.ops|].y + room <= Bottom
    ensures r.page == (if d.y + room > Bottom then d.page + 1 else d.page)
  {
    var d1 := Advance(Put(lc, Checked(d, room), Text(heading, 14, Bold)), Mm(5));
    Advance(Put(lc, d1, Text(body, 11, Normal)), Mm(10))
  }

  /** The professional summary after a break check for 20 mm, when there is a summary. */
  function SummaryDoc(lc: LineCount, d: Doc, p: Fields): (r: Doc)
    ensures d.ops <= r.ops && |r.ops| == |d.ops| + |SummaryBlocks(p)| && d.page <= r.page
    ensures Get(p, "summary") != "" ==> r.ops[|d.ops|].y + Mm(20) <= Bottom
  {
    var s := Get(p, "summary");
    if s == "" then d else HeadedDoc(lc, d, Mm(20), "PROFESSIONAL SUMMARY", s)
  }

  /** The skills after a break check for 15 mm, when there is a skill. */
  function SkillsDoc(lc: LineCount, d: Doc, skills: seq<string>): (r: Doc)
    ensures d.ops <= r.ops && |r.ops| == |d.ops| + |SkillsBlocks(skills)| && d.page <= r.page
    ensures skills != [] ==> r.ops[|d.ops|].y + Mm(15) <= Bottom
  {
    if skills == [] then d else HeadedDoc(lc, d, Mm(15), "SKILLS", JsText.Join(skills, ", "))
  }

  /** One turn of a section's `forEach`: a break check, the entry's blocks, the gap. The
      entry's first block starts where the checked height fits above the bottom margin. */
  function EntryDoc(lc: LineCount, d: Doc, k: Kind, e: Entry): (r: Doc)
    ensures d.ops <= r.ops && |r.ops| == |d.ops| + |EntryBlocks(k, e)| && d.page <= r.page
    ensures r.ops[|d.ops|].y + EntryCheck(k) <= Bottom
  {
    Advance(PutAll(lc, Checked(d, EntryCheck(k)), EntryBlocks(k, e)), EntryGap(k))
  }

  /** The `forEach` over the kept entries, in order. */
  function EntriesDoc(lc: LineCount, d: Doc, k: Kind, kept: seq<Entry>): (r: Doc)
    ensures d.ops <= r.ops && |r.ops| == |d.ops| + |EntriesBlocks(k, kept)| && d.page <= r.page
    decreases |kept|
  {
    if kept == [] then d else EntriesDoc(lc, EntryDoc(lc, d, k, kept[0]), k, kept[1..])
  }

  /** A list section: a break check, the heading and 5 mm, the kept entries, 5 mm; nothing
      when no entry is kept. The heading starts where the checked height fits. */
  function SectionDoc(lc: LineCount, d: Doc, k: Kind, es: seq<Entry>): (r: Doc)
    ensures d.ops <= r.ops && |r.ops| == |d.ops| + |SectionBlocks(k, es)| && d.page <= r.page
    ensures Kept(k, es) != [] ==> r.ops[|d.ops|].y + HeadingCheck(k) <= Bottom
  {
    var kept := Kept(k, es);
    if kept == [] then d
    else
      var d1 := Advance(Put(lc, Checked(d, HeadingCheck(k)), Text(Heading(k), 14, Bold)), Mm(5));
      Advance(EntriesDoc(lc, d1, k, kept), Mm(5))
  }

  /** The header, the contact line and the summary, from the top margin of the first page. */
  function TopDoc(lc: LineCount, p: Fields): (r: Doc)
    ensures |r.ops| == |HeaderBlocks(p)| + |ContactBlocks(p)| + |SummaryBlocks(p)|
    ensures HeaderBlocks(p) != [] ==> r.ops[0].page == 0 && r.ops[0].y == Margin
  {
    SummaryDoc(lc, ContactDoc(lc, HeaderDoc(lc, Doc(0, [], Margin), p), p), p)
  }

  /** Education, work experience, internships and projects, in that order. */
  function ListsDoc(lc: LineCount, d: Doc, r: Resume): (res: Doc)
    ensures d.ops <= res.ops && d.page <= res.page
    ensures |res.ops| == |d.ops| + |SectionBlocks(EducationKind, r.education)|
      + |SectionBlocks(ExperienceKind, r.experience)| + |SectionBlocks(InternshipKind, r.internships)|
      + |SectionBlocks(ProjectKind, r.projects)|
  {
    SectionDoc(lc, SectionDoc(lc, SectionDoc(lc, SectionDoc(lc, d,
      EducationKind, r.education), ExperienceKind, r.experience),
      InternshipKind, r.internships), ProjectKind, r.projects)
  }

  /** Skills, languages, certificates and achievements, in that order. */
  function TailDoc(lc: LineCount, d: Doc, r: Resume): (res: Doc)
    ensures d.ops <= res.ops && d.page <= res.page
    ensures SectionDoc(lc, SkillsDoc(lc, d, r.skills), LanguageKind, r.languages).ops <= res.ops
    ensures |res.ops| == |d.ops| + |SkillsBlocks(r.skills)| + |SectionBlocks(LanguageKind, r.languages)|
      + |SectionBlocks(CertificateKind, r.certificates)| + |SectionBlocks(AchievementKind, r.achievements)|
  {
    SectionDoc(lc, SectionDoc(lc, SectionDoc(lc, SkillsDoc(lc, d, r.skills),
      LanguageKind, r.languages), CertificateKind, r.certificates), AchievementKind, r.achievements)
  }

  /** The document `generatePDFFromData` builds for a record: every section in order from the
      top margin of the first page. */
  function Render(lc: LineCount, r: Resume): (res: Doc)
    ensures SectionDoc(lc, BeforeLanguages(lc, r), LanguageKind, r.languages).ops <= res.ops
  {
    TailDoc(lc, ListsDoc(lc, TopDoc(lc, r.personalInfo), r), r)
  }

  // ---------------------------------------------------------------------------------------
  // Page breaks

  /** The height the export checks for right before writing `b`: 20 mm before a section
      heading (15 mm before SKILLS and LANGUAGES) and 15 mm before an entry title. Every
      other block is written wherever the cursor is. */
  function Room(b: Block): (r: nat)
    ensures r > 0 <==> b.Text? && b.style == Bold && (b.size == 12 || b.size == 14)
    ensures r <= Mm(20)
  {
    match b
    case Text(t, size, style) =>
      if size == 14 && style == Bold then (if t == "SKILLS" || t == "LANGUAGES" then Mm(15) else Mm(20))
      else if size == 12 && style == Bold then Mm(15)
      else 0
    case Rule => 0
  }

  /** Every heading and entry title starts high enough for its checked height to fit above
      the bottom margin. */
  predicate Fits(ops: seq<Placed>)
    ensures Fits(ops) ==>
              forall i :: 0 <= i < |ops| && ops[i].block.Text? && ops[i].block.style == Bold
                          && (ops[i].block.size == 12 || ops[i].block.size == 14)
                ==> ops[i].y + Mm(15) <= Bottom
  {
    forall i :: 0 <= i < |ops| && Room(ops[i].block) > 0 ==> ops[i].y + Room(ops[i].block) <= Bottom
  }

  lemma PutFits(lc: LineCount, d: Doc, b: Block)
    requires Fits(d.ops) && (Room(b) > 0 ==> d.y + Room(b) <= Bottom)
    ensures Fits(Put(lc, d, b).ops)
  {
    var r := Put(lc, d, b);
    forall i | 0 <= i < |r.ops| && Room(r.ops[i].block) > 0 ensures r.ops[i].y + Room(r.ops[i].block) <= Bottom {
      if i < |d.ops| {
        assert r.ops[i] == d.ops[i];
      }
    }
  }

  /** Blocks that need no room keep the headings and titles fitting. */
  lemma {:induction false} PutAllFits(lc: LineCount, d: Doc, bs: seq<Block>)
    requires Fits(d.ops)
    requires forall i :: 0 <= i < |bs| ==> Room(bs[i]) == 0
    ensures Fits(PutAll(lc, d, bs).ops)
    decreases |bs|
  {
    if bs != [] {
      PutFits(lc, d, bs[0]);
      PutAllFits(lc, Put(lc, d, bs[0]), bs[1..]);
    }
  }

  /** An entry's title comes right after its break check, and its other lines need no room. */
  lemma EntryFits(lc: LineCount, d: Doc, k: Kind, e: Entry)
    requires Fits(d.ops)
    ensures Fits(EntryDoc(lc, d, k, e).ops)
  {
    var c := Checked(d, EntryCheck(k));
    var bs := EntryBlocks(k, e);
    assert c.y + EntryCheck(k) <= Bottom;
    PutFits(lc, c, bs[0]);
    PutAllFits(lc, Put(lc, c, bs[0]), bs[1..]);
  }

  lemma {:induction false} EntriesFit(lc: LineCount, d: Doc, k: Kind, kept: seq<Entry>)
    requires Fits(d.ops)
    ensures Fits(EntriesDoc(lc, d, k, kept).ops)
    decreases |kept|
  {
    if kept != [] {
      EntryFits(lc, d, k, kept[0]);
      EntriesFit(lc, EntryDoc(lc, d, k, kept[0]), k, kept[1..]);
    }
  }

  /** Every language line starts at least 10 mm above the bottom margin, the height checked
      before it. */
  lemma {:induction false} LanguagesFit(lc: LineCount, d: Doc, kept: seq<Entry>)
    ensures forall i :: |d.ops| <= i < |EntriesDoc(lc, d, LanguageKind, kept).ops| ==>
              EntriesDoc(lc, d, LanguageKind, kept).ops[i].y + Mm(10) <= Bottom
    decreases |kept|
  {
    if kept != [] {
      var d1 := EntryDoc(lc, d, LanguageKind, kept[0]);
      var r := EntriesDoc(lc, d1, LanguageKind, kept[1..]);
      LanguagesFit(lc, d1, kept[1..]);
      assert |EntryBlocks(LanguageKind, kept[0])| == 1;
      assert |d1.ops| == |d.ops| + 1;
      assert d1.ops[|d.ops|].y + Mm(10) <= Bottom;
      assert r.ops[|d.ops|] == d1.ops[|d.ops|];
      forall i | |d.ops| <= i < |r.ops| ensures r.ops[i].y + Mm(10) <= Bottom {
        if i == |d.ops| {
          assert r.ops[i] == d1.ops[|d.ops|];
          assert r.ops[i].y + Mm(10) <= Bottom;
        } else {
          assert |d1.ops| <= i < |r.ops|;
          assert r.ops[i].y + Mm(10) <= Bottom;
        }
      }
    }
  }

  lemma SectionFits(lc: LineCount, d: Doc, k: Kind, es: seq<Entry>)
    requires Fits(d.ops)
    ensures Fits(SectionDoc(lc, d, k, es).ops)
  {
    var kept := Kept(k, es);
    if kept != [] {
      var c := Checked(d, HeadingCheck(k));
      assert Room(Text(Heading(k), 14, Bold)) == HeadingCheck(k) by {
        assert Heading(k) != "SKILLS";
      }
      PutFits(lc, c, Text(Heading(k), 14, Bold));
      EntriesFit(lc, Advance(Put(lc, c, Text(Heading(k), 14, Bold)), Mm(5)), k, kept);
    }
  }

  lemma HeadedFits(lc: LineCount, d: Doc, room: nat, heading: string, body: string)
    requires Fits(d.ops) && room <= ContentHeight && Room(Text(heading, 14, Bold)) <= room
    ensures Fits(HeadedDoc(lc, d, room, heading, body).ops)
  {
    var c := Checked(d, room);
    PutFits(lc, c, Text(heading, 14, Bold));
    var d1 := Advance(Put(lc, c, Text(heading, 14, Bold)), Mm(5));
    PutFits(lc, d1, Text(body, 11, Normal));
  }

  lemma HeaderFits(lc: LineCount, d: Doc, p: Fields)
    requires Fits(d.ops)
    ensures Fits(HeaderDoc(lc, d, p).ops)
  {
    var name := FullName(p);
    if name != "" {
      PutFits(lc, d, Text(name, 20, Bold));
    }
  }

  lemma ContactFits(lc: LineCount, d: Doc, p: Fields)
    requires Fits(d.ops)
    ensures Fits(ContactDoc(lc, d, p).ops)
  {
    if ContactParts(p) != [] {
      LineRuleFits(lc, d, ContactLine(p));
    }
  }

  lemma LineRuleFits(lc: LineCount, d: Doc, line: string)
    requires Fits(d.ops)
    ensures Fits(LineRuleDoc(lc, d, line).ops)
  {
    PutFits(lc, d, Text(line, 10, Normal));
    PutFits(lc, Advance(Put(lc, d, Text(line, 10, Normal)), Mm(10)), Rule);
  }

  lemma TopFits(lc: LineCount, p: Fields)
    ensures Fits(TopDoc(lc, p).ops)
  {
    var d0 := Doc(0, [], Margin);
    HeaderFits(lc, d0, p);
    var d1 := HeaderDoc(lc, d0, p);
    ContactFits(lc, d1, p);
    var d2 := ContactDoc(lc, d1, p);
    if Get(p, "summary") != "" {
      HeadedFits(lc, d2, Mm(20), "PROFESSIONAL SUMMARY", Get(p, "summary"));
    }
  }

  lemma ListsFit(lc: LineCount, d: Doc, r: Resume)
    requires Fits(d.ops)
    ensures Fits(ListsDoc(lc, d, r).ops)
  {
    SectionFits(lc, d, EducationKind, r.education);
    var d1 := SectionDoc(lc, d, EducationKind, r.education);
    SectionFits(lc, d1, ExperienceKind, r.experience);
    var d2 := SectionDoc(lc, d1, ExperienceKind, r.experience);
    SectionFits(lc, d2, InternshipKind, r.internships);
    SectionFits(lc, SectionDoc(lc, d2, InternshipKind, r.internships), ProjectKind, r.projects);
  }

  lemma TailFits(lc: LineCount, d: Doc, r: Resume)
    requires Fits(d.ops)
    ensures Fits(TailDoc(lc, d, r).ops)
  {
    if r.skills != [] {
      HeadedFits(lc, d, Mm(15), "SKILLS", JsText.Join(r.skills, ", "));
    }
    var d1 := SkillsDoc(lc, d, r.skills);
    SectionFits(lc, d1, LanguageKind, r.languages);
    var d2 := SectionDoc(lc, d1, LanguageKind, r.languages);
    SectionFits(lc, d2, CertificateKind, r.certificates);
    SectionFits(lc, SectionDoc(lc, d2, CertificateKind, r.certificates), AchievementKind, r.achievements);
  }

  /** The page-break rule of the whole export: every section heading starts at least 20 mm
      (SKILLS and LANGUAGES at least 15 mm) and every entry title at least 15 mm above the
      bottom margin, so none of them is left at the foot of a page. */
  lemma RenderFits(lc: LineCount, r: Resume)
    ensures Fits(Render(lc, r).ops)
  {
    TopFits(lc, r.personalInfo);
    var top := TopDoc(lc, r.personalInfo);
    ListsFit(lc, top, r);
    TailFits(lc, ListsDoc(lc, top, r), r);
  }

  /** The export places one block for every block of the record's content. */
  lemma RenderPlacesContent(lc: LineCount, r: Resume)
    ensures |Render(lc, r).ops| == |Content(r)|
  {
    RenderLength(lc, r);
    ContentLength(r);
  }

  lemma RenderLength(lc: LineCount, r: Resume)
    ensures var p := r.personalInfo;
      |Render(lc, r).ops| == |HeaderBlocks(p)| + |ContactBlocks(p)| + |SummaryBlocks(p)|
      + |SectionBlocks(EducationKind, r.education)| + |SectionBlocks(ExperienceKind, r.experience)|
      + |SectionBlocks(InternshipKind, r.internships)| + |SectionBlocks(ProjectKind, r.projects)|
      + |SkillsBlocks(r.skills)| + |SectionBlocks(LanguageKind, r.languages)|
      + |SectionBlocks(CertificateKind, r.certificates)| + |SectionBlocks(AchievementKind, r.achievements)|
  {
    var p := r.personalInfo;
    var top := TopDoc(lc, p);
    var lists := ListsDoc(lc, top, r);
    TailLength(lc, r);
    assert |top.ops| == |HeaderBlocks(p)| + |ContactBlocks(p)| + |SummaryBlocks(p)|;
    assert |lists.ops| == |top.ops| + |SectionBlocks(EducationKind, r.education)| + |SectionBlocks(ExperienceKind, r.experience)|
      + |SectionBlocks(InternshipKind, r.internships)| + |SectionBlocks(ProjectKind, r.projects)|;
  }

  lemma TailLength(lc: LineCount, r: Resume)
    ensures |Render(lc, r).ops| == |ListsDoc(lc, TopDoc(lc, r.personalInfo), r).ops|
      + |SkillsBlocks(r.skills)| + |SectionBlocks(LanguageKind, r.languages)|
      + |SectionBlocks(CertificateKind, r.certificates)| + |SectionBlocks(AchievementKind, r.achievements)|
  {
    var lists := ListsDoc(lc, TopDoc(lc, r.personalInfo), r);
    var t := TailDoc(lc, lists, r);
    assert Render(lc, r) == t;
  }

  /** The document as the languages section begins: everything up to the skills. */
  function BeforeLanguages(lc: LineCount, r: Resume): Doc {
    SkillsDoc(lc, ListsDoc(lc, TopDoc(lc, r.personalInfo), r), r.skills)
  }

  /** After the LANGUAGES heading, every line of the section starts at least 10 mm above
      the bottom margin. */
  lemma LanguagesSectionFits(lc: LineCount, d: Doc, langs: seq<Entry>)
    ensures forall i :: |d.ops| < i < |SectionDoc(lc, d, LanguageKind, langs).ops|
              ==> SectionDoc(lc, d, LanguageKind, langs).ops[i].y + Mm(10) <= Bottom
  {
    var kept := Kept(LanguageKind, langs);
    if kept != [] {
      var d1 := Advance(Put(lc, Checked(d, HeadingCheck(LanguageKind)), Text(Heading(LanguageKind), 14, Bold)), Mm(5));
      LanguagesFit(lc, d1, kept);
      assert SectionDoc(lc, d, LanguageKind, langs).ops == EntriesDoc(lc, d1, LanguageKind, kept).ops;
    }
  }

  /** The break check before each language line holds in the whole document: after the
      LANGUAGES heading, every line of the section starts at least 10 mm above the bottom
      margin. */
  lemma RenderLanguagesFit(lc: LineCount, r: Resume)
    ensures forall i :: |BeforeLanguages(lc, r).ops| < i
                          < |SectionDoc(lc, BeforeLanguages(lc, r), LanguageKind, r.languages).ops|
              ==> Render(lc, r).ops[i].y + Mm(10) <= Bottom
  {
    LanguagesSectionFits(lc, BeforeLanguages(lc, r), r.languages);
  }

  // ---------------------------------------------------------------------------------------
  // Ids

  lemma {:induction false} EntriesDocIgnoresIds(lc: LineCount, d: Doc, k: Kind, xs: seq<Entry>, ys: seq<Entry>)
    requires SameFields(xs, ys)
    ensures EntriesDoc(lc, d, k, xs) == EntriesDoc(lc, d, k, ys)
    decreases |xs|
  {
    if xs != [] {
      assert xs[0].fields == ys[0].fields;
      assert EntryBlocks(k, xs[0]) == EntryBlocks(k, ys[0]);
      TailSameFields(xs, ys);
      EntriesDocIgnoresIds(lc, EntryDoc(lc, d, k, xs[0]), k, xs[1..], ys[1..]);
    }
  }

  lemma SectionDocIgnoresIds(lc: LineCount, k: Kind, xs: seq<Entry>, ys: seq<Entry>)
    requires SameFields(xs, ys)
    ensures forall d :: SectionDoc(lc, d, k, xs) == SectionDoc(lc, d, k, ys)
  {
    KeptIgnoresIds(k, xs, ys);
    forall d ensures SectionDoc(lc, d, k, xs) == SectionDoc(lc, d, k, ys) {
      var d1 := Advance(Put(lc, Checked(d, HeadingCheck(k)), Text(Heading(k), 14, Bold)), Mm(5));
      EntriesDocIgnoresIds(lc, d1, k, Kept(k, xs), Kept(k, ys));
    }
  }

  /** Two records that differ only in entry ids give the same document: the same page count
      and every block in the same place. */
  lemma RenderIgnoresIds(lc: LineCount, a: Resume, b: Resume)
    requires a.personalInfo == b.personalInfo && a.skills == b.skills
    requires SameFields(a.education, b.education) && SameFields(a.experience, b.experience)
    requires SameFields(a.internships, b.internships) && SameFields(a.projects, b.projects)
    requires SameFields(a.languages, b.languages) && SameFields(a.certificates, b.certificates)
    requires SameFields(a.achievements, b.achievements)
    ensures Render(lc, a) == Render(lc, b)
  {
    SectionDocIgnoresIds(lc, EducationKind, a.education, b.education);
    SectionDocIgnoresIds(lc, ExperienceKind, a.experience, b.experience);
    SectionDocIgnoresIds(lc, InternshipKind, a.internships, b.internships);
    SectionDocIgnoresIds(lc, ProjectKind, a.projects, b.projects);
    SectionDocIgnoresIds(lc, LanguageKind, a.languages, b.languages);
    SectionDocIgnoresIds(lc, CertificateKind, a.certificates, b.certificates);
    SectionDocIgnoresIds(lc, AchievementKind, a.achievements, b.achievements);
  }

  /** An entry's title and its optional lines are placed one under the other. */
  lemma EntryPlacement(lc: LineCount, d: Doc, title: string, sub: string, date: string, details: string)
    ensures PutAll(lc, d, [Text(title, 12, Bold)] + (Opt(sub, 11, Italic) + Opt(date, 10, Normal) + Opt(details, 10, Normal)))
            == PutAll(lc, PutAll(lc, PutAll(lc, Put(lc, d, Text(title, 12, Bold)),
                 Opt(sub, 11, Italic)), Opt(date, 10, Normal)), Opt(details, 10, Normal))
  {
    var t := [Text(title, 12, Bold)];
    var o1, o2, o3 := Opt(sub, 11, Italic), Opt(date, 10, Normal), Opt(details, 10, Normal);
    assert t[1..] == [];
    assert t + (o1 + o2 + o3) == t + o1 + o2 + o3;
    PutAllAppend(lc, d, t + o1 + o2, o3);
    PutAllAppend(lc, d, t + o1, o2);
    PutAllAppend(lc, d, t, o1);
  }

    /** The entries from the i-th on are the i-th entry followed by the ones after it. */
  lemma EntriesStep(lc: LineCount, d: Doc, k: Kind, kept: seq<Entry>, i: nat)
    requires i < |kept|
    ensures EntriesBlocks(k, kept[i..]) == EntryBlocks(k, kept[i]) + EntriesBlocks(k, kept[i + 1..])
    ensures EntriesDoc(lc, d, k, kept[i..]) == EntriesDoc(lc, EntryDoc(lc, d, k, kept[i]), k, kept[i + 1..])
  {
    assert kept[i..][1..] == kept[i + 1..];
  }

  /** Appending blocks in two runs places them as one run would. */
  lemma {:induction false} PutAllAppend(lc: LineCount, d: Doc, a: seq<Block>, b: seq<Block>)
    ensures PutAll(lc, d, a + b) == PutAll(lc, PutAll(lc, d, a), b)
    decreases |a|
  {
    if a == [] {
      assert a + b == b;
    } else {
      assert (a + b)[0] == a[0] && (a + b)[1..] == a[1..] + b;
      PutAllAppend(lc, Put(lc, d, a[0]), a[1..], b);
    }
  }

  // ---------------------------------------------------------------------------------------
  // The jsPDF document

  class Layout {
    /** The wrapped line count `splitTextToSize(text, contentWidth).length` at that font. */
    const lineCount: LineCount
    /** The number of pages of the document; jsPDF writes on the last one. */
    var pages: nat
    var ops: seq<Placed>
    /** The blocks of `ops`, in placement order. */
    ghost var written: seq<Block>
    /** `currentY`. */
    var y: int

    /** There is a page, the cursor is at or below the top margin, every block lies on an
        existing page below the top margin, the blocks are in reading order and the cursor
        is past the last of them. */
    ghost predicate Valid()
      reads this
    {
      pages >= 1 && Margin <= y
      && (forall i :: 0 <= i < |ops| ==> ops[i].page < pages && Margin <= ops[i].y)
      && |written| == |ops| && (forall i :: 0 <= i < |ops| ==> written[i] == ops[i].block)
      && InOrder(ops)
      && (|ops| > 0 ==> Before(ops[|ops| - 1], Placed(pages - 1, y, Rule, 0)))
    }

    /** The document as a value. */
    function State(): Doc
      reads this
      requires pages >= 1
    {
      Doc(pages - 1, ops, y)
    }

    /** `new jsPDF('p', 'mm', 'a4')` with `currentY = margin`. */
    constructor(lineCount: LineCount)
      ensures Valid()
      ensures this.lineCount == lineCount
      ensures State() == Doc(0, [], Margin) && written == []
    {
      this.lineCount := lineCount;
      pages := 1;
      ops := [];
      written := [];
      y := Margin;
    }

    /** `currentY = addText(text, margin, currentY, contentWidth, size, style)`: the text is
        written at the cursor on the last page and the cursor moves down by its height. */
    method AddText(text: string, size: nat, style: Style)
      requires Valid()
      modifies this
      ensures Valid() && State() == Put(lineCount, old(State()), Text(text, size, style))
      ensures written == old(written) + [Text(text, size, style)]
    {
      var h := TextHeight(lineCount(text, size, style), size);
      ops := ops + [Placed(pages - 1, y, Text(text, size, style), h)];
      written := written + [Text(text, size, style)];
      y := y + h;
    }

    /** `addLine(margin, currentY, pageWidth - margin, currentY)`: a rule at the cursor. */
    method AddLine()
      requires Valid()
      modifies this
      ensures Valid() && State() == Put(lineCount, old(State()), Rule)
      ensures written == old(written) + [Rule]
    {
      ops := ops + [Placed(pages - 1, y, Rule, 0)];
      written := written + [Rule];
    }

    /** `currentY += d`. */
    method Skip(d: nat)
      requires Valid()
      modifies this
      ensures Valid() && State() == Advance(old(State()), d)
      ensures written == old(written)
    {
      y := y + d;
    }

    /** `checkNewPage(h)`: a page is added, and the cursor goes to the top margin, exactly
        when `h` more would cross the bottom margin; the result says whether it was. */
    method CheckNewPage(h: nat) returns (added: bool)
      requires Valid()
      modifies this
      ensures Valid() && State() == Checked(old(State()), h)
      ensures added <==> old(y) + h > Bottom
      ensures pages == old(pages) + (if added then 1 else 0) && y == CheckY(old(y), h)
      ensures written == old(written)
    {
      if y + h > Bottom {
        pages := pages + 1;
        y := Margin;
        return true;
      }
      return false;
    }

    /** `if (text) { currentY = addText(text, …) }`. */
    method AddOptional(text: string, size: nat, style: Style)
      requires Valid()
      modifies this
      ensures Valid() && State() == PutAll(lineCount, old(State()), Opt(text, size, style))
      ensures written == old(written) + Opt(text, size, style)
    {
      if text != "" {
        AddText(text, size, style);
        assert [Text(text, size, style)][1..] == [];
      }
    }

    /** The header: the full name in 20-point bold, then 5 mm, when there is a name. */
    method Header(p: Fields)
      requires Valid()
      modifies this
      ensures Valid() && State() == HeaderDoc(lineCount, old(State()), p)
      ensures written == old(written) + HeaderBlocks(p)
    {
      var name := FullName(p);
      if name != "" {
        AddText(name, 20, Bold);
        Skip(Mm(5));
      }
    }

    /** The contact line in 10 points, 10 mm, a rule, 10 mm, when some contact property is
        filled in. */
    method Contact(p: Fields)
      requires Valid()
      modifies this
      ensures Valid() && State() == ContactDoc(lineCount, old(State()), p)
      ensures written == old(written) + ContactBlocks(p)
    {
      if ContactParts(p) != [] {
        LineAndRule(ContactLine(p));
      }
    }

    /** A 10-point line, 10 mm, a rule across the page and 10 mm. */
    method LineAndRule(line: string)
      requires Valid()
      modifies this
      ensures Valid()
      ensures State() == LineRuleDoc(lineCount, old(State()), line)
      ensures written == old(written) + [Text(line, 10, Normal), Rule]
    {
      AddText(line, 10, Normal);
      Skip(Mm(10));
      AddLine();
      ConcatAssoc(old(written), [Text(line, 10, Normal)], [Rule]);
      Skip(Mm(10));
    }

    /** The professional summary: a break check for 20 mm, the heading, 5 mm, the summary
        in 11 points and 10 mm, when there is a summary. */
    method Summary(p: Fields)
      requires Valid()
      modifies this
      ensures Valid() && State() == SummaryDoc(lineCount, old(State()), p)
      ensures written == old(written) + SummaryBlocks(p)
    {
      var summary := Get(p, "summary");
      if summary != "" {
        var added := CheckNewPage(Mm(20));
        AddText("PROFESSIONAL SUMMARY", 14, Bold);
        Skip(Mm(5));
        AddText(summary, 11, Normal);
        ConcatAssoc(old(written), [Text("PROFESSIONAL SUMMARY", 14, Bold)], [Text(summary, 11, Normal)]);
        Skip(Mm(10));
      }
    }

    /** The skills: a break check for 15 mm, the heading, 5 mm, the skills joined with ", "
        in 11 points and 10 mm, when there is a skill. */
    method Skills(skills: seq<string>)
      requires Valid()
      modifies this
      ensures Valid() && State() == SkillsDoc(lineCount, old(State()), skills)
      ensures written == old(written) + SkillsBlocks(skills)
    {
      if |skills| > 0 {
        var added := CheckNewPage(Mm(15));
        var line := JsText.Join(skills, ", ");
        AddText("SKILLS", 14, Bold);
        Skip(Mm(5));
        AddText(line, 11, Normal);
        ConcatAssoc(old(written), [Text("SKILLS", 14, Bold)], [Text(line, 11, Normal)]);
        Skip(Mm(10));
      }
    }

    /** The `addText` calls of one entry, in the order and with the fonts of its section,
        one under the other. */
    method EntryText(k: Kind, e: Entry)
      requires Valid()
      modifies this
      ensures Valid() && State() == PutAll(lineCount, old(State()), EntryBlocks(k, e))
      ensures written == old(written) + EntryBlocks(k, e)
    {
      var f := e.fields;
      if k == LanguageKind {
        AddText(LanguageLine(f), 11, Normal);
        assert [Text(LanguageLine(f), 11, Normal)][1..] == [];
      } else {
        var title, sub, date, details := Get(f, PrimaryKey(k)), Subtitle(k, f), DateLine(k, f), Details(k, f);
        ghost var d := State();
        AddText(title, 12, Bold);
        SubLines(sub, date, details);
        EntryPlacement(lineCount, d, title, sub, date, details);
        EntryBlocksTitled(k, e);
        ConcatAssoc(old(written), [Text(title, 12, Bold)],
          Opt(sub, 11, Italic) + Opt(date, 10, Normal) + Opt(details, 10, Normal));
      }
    }

    /** The optional lines under an entry's title: the italic subtitle, the date line and
        the description, each only when it is not empty. */
    method SubLines(subtitle: string, date: string, details: string)
      requires Valid()
      modifies this
      ensures Valid()
      ensures State() == PutAll(lineCount, PutAll(lineCount, PutAll(lineCount, old(State()),
                Opt(subtitle, 11, Italic)), Opt(date, 10, Normal)), Opt(details, 10, Normal))
      ensures written == old(written) + (Opt(subtitle, 11, Italic) + Opt(date, 10, Normal) + Opt(details, 10, Normal))
    {
      var o1, o2, o3 := Opt(subtitle, 11, Italic), Opt(date, 10, Normal), Opt(details, 10, Normal);
      AddOptional(subtitle, 11, Italic);
      AddOptional(date, 10, Normal);
      ConcatAssoc(old(written), o1, o2);
      AddOptional(details, 10, Normal);
      ConcatAssoc(old(written), o1 + o2, o3);
    }

    /** The `forEach` over the kept entries of a section: for each in order, a break check,
        its text and a gap. */
    method Entries(k: Kind, kept: seq<Entry>)
      requires Valid()
      modifies this
      ensures Valid() && State() == EntriesDoc(lineCount, old(State()), k, kept)
      ensures written == old(written) + EntriesBlocks(k, kept)
    {
      var i := 0;
      while i < |kept|
        invariant 0 <= i <= |kept|
        invariant Valid()
        invariant EntriesDoc(lineCount, old(State()), k, kept) == EntriesDoc(lineCount, State(), k, kept[i..])
        invariant old(written) + EntriesBlocks(k, kept) == written + EntriesBlocks(k, kept[i..])
      {
        ghost var before := written;
        ghost var rest := EntriesBlocks(k, kept[i + 1..]);
        EntriesStep(lineCount, State(), k, kept, i);
        OneEntry(k, kept[i]);
        ConcatAssoc(before, EntryBlocks(k, kept[i]), rest);
        i := i + 1;
      }
    }

    /** One turn of the `forEach`: a break check, the entry's text, the gap. */
    method OneEntry(k: Kind, e: Entry)
      requires Valid()
      modifies this
      ensures Valid() && State() == EntryDoc(lineCount, old(State()), k, e)
      ensures written == old(written) + EntryBlocks(k, e)
    {
      var added := CheckNewPage(EntryCheck(k));
      EntryText(k, e);
      Skip(EntryGap(k));
    }

    /** A list section: when some entry is kept, a break check, the heading in 14-point
        bold and 5 mm, the kept entries, then 5 mm. */
    method Section(k: Kind, es: seq<Entry>)
      requires Valid()
      modifies this
      ensures Valid() && State() == SectionDoc(lineCount, old(State()), k, es)
      ensures written == old(written) + SectionBlocks(k, es)
    {
      var kept := Kept(k, es);
      if |kept| > 0 {
        var added := CheckNewPage(HeadingCheck(k));
        AddText(Heading(k), 14, Bold);
        Skip(Mm(5));
        Entries(k, kept);
        ConcatAssoc(old(written), [Text(Heading(k), 14, Bold)], EntriesBlocks(k, kept));
        Skip(Mm(5));
      }
    }

    /** Education, work experience, internships and projects. */
    method Lists(r: Resume)
      requires Valid()
      modifies this
      ensures Valid() && State() == ListsDoc(lineCount, old(State()), r)
      ensures written == old(written) + SectionBlocks(EducationKind, r.education)
                + SectionBlocks(ExperienceKind, r.experience) + SectionBlocks(InternshipKind, r.internships)
                + SectionBlocks(ProjectKind, r.projects)
    {
      Section(EducationKind, r.education);
      Section(ExperienceKind, r.experience);
      Section(InternshipKind, r.internships);
      Section(ProjectKind, r.projects);
    }

    /** Skills, languages, certificates and achievements. */
    method Tail(r: Resume)
      requires Valid()
      modifies this
      ensures Valid() && State() == TailDoc(lineCount, old(State()), r)
      ensures written == old(written) + SkillsBlocks(r.skills) + SectionBlocks(LanguageKind, r.languages)
                + SectionBlocks(CertificateKind, r.certificates) + SectionBlocks(AchievementKind, r.achievements)
    {
      Skills(r.skills);
      Section(LanguageKind, r.languages);
      Section(CertificateKind, r.certificates);
      Section(AchievementKind, r.achievements);
    }
  }

  /** `generatePDFFromData()` for a record: a well-formed layout that writes exactly the
      record's content, in order, with every block where `Render` puts it, and hence with
      every heading and entry title clear of the bottom margin. */
  method GeneratePdfFromData(r: Resume, lineCount: LineCount) returns (pdf: Layout)
    ensures fresh(pdf) && pdf.Valid() && pdf.lineCount == lineCount
    ensures pdf.State() == Render(lineCount, r)
    ensures pdf.written == Content(r)
    ensures forall i, j :: 0 <= i < j < |pdf.ops| ==> Before(pdf.ops[i], pdf.ops[j])
    ensures Fits(pdf.ops)
    ensures forall i :: |BeforeLanguages(lineCount, r).ops| < i
                          < |SectionDoc(lineCount, BeforeLanguages(lineCount, r), LanguageKind, r.languages).ops|
              ==> pdf.ops[i].y + Mm(10) <= Bottom
  {
    pdf := new Layout(lineCount);
    var p := r.personalInfo;
    pdf.Header(p);
    assert pdf.written == HeaderBlocks(p);
    pdf.Contact(p);
    pdf.Summary(p);
    pdf.Lists(r);
    pdf.Tail(r);
    InOrderAll(pdf.ops);
    assert pdf.ops == Render(lineCount, r).ops;
    RenderFits(lineCount, r);
    RenderLanguagesFit(lineCount, r);
  }
}
