/** What the direct-text PDF export writes, independent of where it lands on the page:
    the string builders (name, contact line, date range, degree, language line, file name)
    and the ordered list of text blocks the record produces, section by section. */
module PdfText {
  import opened JsText
  import opened ResumeData
  import opened Seqs

  datatype Style = Normal | Bold | Italic

  /** One call of `addText` (its text, font size in points and style), or the rule drawn
      under the contact line. */
  datatype Block = Text(text: string, size: nat, style: Style) | Rule

  // ---------------------------------------------------------------------------------------
  // String builders

  /** `` `${firstName || ''} ${lastName || ''}`.trim() ``: empty exactly when both names are
      blank. */
  function FullName(p: Fields): (r: string)
    ensures r == "" <==> IsBlank(Get(p, "firstName")) && IsBlank(Get(p, "lastName"))
  {
    BlankConcat(Get(p, "firstName"), " ");
    BlankConcat(Get(p, "firstName") + " ", Get(p, "lastName"));
    Trim(Get(p, "firstName") + " " + Get(p, "lastName"))
  }

  /** A personal-information property that goes into the contact line, with its label. */
  datatype ContactField = ContactField(key: string, prefix: string)

  /** The contact properties in the order the line lists them. */
  function ContactOrder(): seq<ContactField> {
    [ContactField("email", "Email: "), ContactField("phone", "Phone: "),
     ContactField("address", "Address: "), ContactField("linkedin", "LinkedIn: ")]
  }

  /** Whether a contact property is filled in (`if (state.personalInfo.email)`). */
  function Filled(p: Fields): ContactField -> bool {
    (f: ContactField) => Get(p, f.key) != ""
  }

  /** The labelled parts for the properties of `fs` that are filled in, in the order of
      `fs`: at most one per property, and none exactly when nothing is filled in. */
  function PartsOf(p: Fields, fs: seq<ContactField>): (r: seq<string>)
    ensures |r| <= |fs|
    ensures r == [] <==> forall f :: f in fs ==> Get(p, f.key) == ""
  {
    if fs == [] then []
    else
      var rest := PartsOf(p, fs[1..]);
      assert forall f :: f in fs ==> f == fs[0] || f in fs[1..];
      (if Get(p, fs[0].key) != "" then [fs[0].prefix + Get(p, fs[0].key)] else []) + rest
  }

  /** The parts are exactly the filled-in properties of `fs`, in order, each its label
      followed by its value. */
  lemma {:induction false} PartsOfFilled(p: Fields, fs: seq<ContactField>)
    ensures var filled := Filter(fs, Filled(p));
            |PartsOf(p, fs)| == |filled|
            && forall i :: 0 <= i < |filled| ==> PartsOf(p, fs)[i] == filled[i].prefix + Get(p, filled[i].key)
  {
    if fs != [] {
      var f := Filled(p);
      PartsOfFilled(p, fs[1..]);
      FilterUnfold(fs, f);
      var parts, filled := PartsOf(p, fs), Filter(fs, f);
      var rest, restFilled := PartsOf(p, fs[1..]), Filter(fs[1..], f);
      if Get(p, fs[0].key) != "" {
        assert f(fs[0]);
        assert parts == [fs[0].prefix + Get(p, fs[0].key)] + rest;
        assert filled == [fs[0]] + restFilled;
        forall i | 0 < i < |filled| ensures parts[i] == filled[i].prefix + Get(p, filled[i].key) {
          assert parts[i] == rest[i - 1] && filled[i] == restFilled[i - 1];
        }
      } else {
        assert !f(fs[0]);
        assert parts == rest && filled == restFilled;
      }
    }
  }

  /** The `contactInfo` array: `Email: …`, `Phone: …`, `Address: …`, `LinkedIn: …` for
      the properties that are filled in, in that order (by `PartsOfFilled`). It is empty
      exactly when none is filled in and starts with the email when there is one. */
  function ContactParts(p: Fields): (r: seq<string>)
    ensures |r| <= 4
    ensures r == [] <==> Get(p, "email") == "" && Get(p, "phone") == "" && Get(p, "address") == "" && Get(p, "linkedin") == ""
    ensures Get(p, "email") != "" ==> r[0] == "Email: " + Get(p, "email")
  {
    var fs := ContactOrder();
    assert fs[0].key == "email" && fs[1].key == "phone" && fs[2].key == "address" && fs[3].key == "linkedin";
    assert forall f :: f in fs ==> f == fs[0] || f == fs[1] || f == fs[2] || f == fs[3];
    PartsOf(p, fs)
  }

  /** `contactInfo.join(' | ')`: it starts with the first part and is empty only when there
      are no parts. */
  function ContactLine(p: Fields): (r: string)
    ensures ContactParts(p) == [] ==> r == ""
    ensures ContactParts(p) != [] ==> ContactParts(p)[0] <= r
  {
    Join(ContactParts(p), " | ")
  }

  /** `end || 'Present'`. */
  function EndOrPresent(end: string): (r: string)
    ensures r != ""
  {
    if end == "" then "Present" else end
  }

  /** `.replace(/^ - | - $/, '')`: without the global flag only the leftmost match goes,
      so a leading " - " is removed if there is one, else a trailing one. */
  function StripDash(s: string): (r: string)
    ensures |r| == |s| || |r| == |s| - 3
  {
    if " - " <= s then s[3..]
    else if |s| >= 3 && s[|s| - 3..] == " - " then s[..|s| - 3]
    else s
  }

  /** The date line of an education, experience, internship or project entry. It is never
      empty; with no start date it is the end date or "Present"; when the start date does
      not begin with a space and the end date does not end with one, it is
      "{start} - {end or Present}". */
  function DateRange(start: string, end: string): (r: string)
    ensures r != ""
    ensures start == "" ==> r == EndOrPresent(end)
    ensures start != "" && start[0] != ' ' && (end == "" || end[|end| - 1] != ' ') ==>
      r == start + " - " + EndOrPresent(end)
  {
    var e := EndOrPresent(end);
    var raw := start + " - " + e;
    assert start == "" ==> raw == " - " + e;
    assert start != "" ==> raw[0] == start[0];
    assert raw[|raw| - 1] == e[|e| - 1];
    StripDash(raw)
  }

  /** `` `${degree || ''} ${field ? `in ${field}` : ''}`.trim() ``: empty exactly when the
      degree is blank and there is no field of study. */
  function DegreeText(degree: string, field: string): (r: string)
    ensures r == "" <==> IsBlank(degree) && field == ""
  {
    var tail := if field != "" then "in " + field else "";
    BlankConcat(degree, " ");
    BlankConcat(degree + " ", tail);
    assert field != "" ==> !IsBlank(tail) by {
      if field != "" { assert tail[0] == 'i'; }
    }
    Trim(degree + " " + tail)
  }

  /** `` `${lang.language}${lang.proficiency ? ` - ${lang.proficiency}` : ''}` ``. */
  function LanguageLine(f: Fields): (r: string)
    ensures Get(f, "language") <= r
    ensures r == Get(f, "language") <==> Get(f, "proficiency") == ""
    ensures Get(f, "proficiency") != "" ==> r[|Get(f, "language")|..] == " - " + Get(f, "proficiency")
  {
    var p := Get(f, "proficiency");
    Get(f, "language") + (if p != "" then " - " + p else "")
  }

  /** `new Date().toISOString().split('T')[0]`: the longest prefix without a 'T'. */
  function DatePart(iso: string): (r: string)
    ensures r <= iso
    ensures 'T' !in r
    ensures r == iso || iso[|r|] == 'T'
  {
    if iso == [] || iso[0] == 'T' then ""
    else
      var rest := DatePart(iso[1..]);
      assert iso == [iso[0]] + iso[1..];
      [iso[0]] + rest
  }

  /** The download name `{firstName or 'Resume'}{_lastName if any}_Resume_{date}.pdf`: it
      starts with the first name, or "Resume" when there is none, and ends with
      "_Resume_{date}.pdf"; "_" and the last name come between exactly when there is a last
      name. */
  function FileName(p: Fields, isoNow: string): (r: string)
    ensures var first := if Get(p, "firstName") == "" then "Resume" else Get(p, "firstName");
            var last := Get(p, "lastName");
            var suffix := "_Resume_" + DatePart(isoNow) + ".pdf";
            first <= r
            && r[|first|..] == (if last == "" then suffix else "_" + last + suffix)
  {
    var first := if Get(p, "firstName") == "" then "Resume" else Get(p, "firstName");
    var last := Get(p, "lastName");
    var middle := if last != "" then "_" + last else "";
    var suffix := "_Resume_" + DatePart(isoNow) + ".pdf";
    SplitConcat(first, middle + suffix);
    first + (middle + suffix)
  }

  // ---------------------------------------------------------------------------------------
  // Section content

  /** The list sections of the export, in the order they are written (skills come between
      projects and languages and are not a list of entries). */
  datatype Kind = EducationKind | ExperienceKind | InternshipKind | ProjectKind
                | LanguageKind | CertificateKind | AchievementKind

  function Heading(k: Kind): string {
    match k
    case EducationKind => "EDUCATION"
    case ExperienceKind => "WORK EXPERIENCE"
    case InternshipKind => "INTERNSHIPS"
    case ProjectKind => "PROJECTS"
    case LanguageKind => "LANGUAGES"
    case CertificateKind => "CERTIFICATES"
    case AchievementKind => "ACHIEVEMENTS & AWARDS"
  }

  /** The property an entry must fill (with non-blank text) to be written at all. */
  function PrimaryKey(k: Kind): string {
    match k
    case EducationKind => "institution"
    case ExperienceKind => "company"
    case InternshipKind => "company"
    case ProjectKind => "title"
    case LanguageKind => "language"
    case CertificateKind => "name"
    case AchievementKind => "title"
  }

  /** `e.institution && e.institution.trim()` and its counterparts. */
  function Keeps(k: Kind): Entry -> bool {
    (e: Entry) => Trim(Get(e.fields, PrimaryKey(k))) != ""
  }

  /** `validEducation`, `validExperience`, ...: the entries to write, in collection order. */
  function Kept(k: Kind, es: seq<Entry>): (r: seq<Entry>)
    ensures forall e :: e in r <==> e in es && !IsBlank(Get(e.fields, PrimaryKey(k)))
  {
    Filter(es, Keeps(k))
  }

  /** A block for an optional line: nothing when the text is empty. */
  function Opt(text: string, size: nat, style: Style): seq<Block> {
    if text != "" then [Text(text, size, style)] else []
  }

  /** The italic 11-point line under an entry's title: the degree, the position, the
      technologies or the issuer; achievements have none. */
  function Subtitle(k: Kind, f: Fields): (r: string)
    ensures k == AchievementKind || k == LanguageKind ==> r == ""
    ensures k == ExperienceKind || k == InternshipKind ==> r == Get(f, "position")
    ensures k == ProjectKind ==> (r == "" <==> Get(f, "technologies") == "")
    ensures k == CertificateKind ==> (r == "" <==> Get(f, "issuer") == "")
    ensures k == EducationKind ==> (r == "" <==> IsBlank(Get(f, "degree")) && Get(f, "field") == "")
  {
    match k
    case EducationKind => DegreeText(Get(f, "degree"), Get(f, "field"))
    case ExperienceKind => Get(f, "position")
    case InternshipKind => Get(f, "position")
    case ProjectKind => if Get(f, "technologies") != "" then "Technologies: " + Get(f, "technologies") else ""
    case CertificateKind => if Get(f, "issuer") != "" then "Issued by: " + Get(f, "issuer") else ""
    case AchievementKind => ""
    case LanguageKind => ""
  }

  /** The 10-point date line: the date range of dated entries, the date of certificates
      and achievements. */
  function DateLine(k: Kind, f: Fields): (r: string)
    ensures k == LanguageKind ==> r == ""
    ensures k == CertificateKind || k == AchievementKind ==> r == Get(f, "date")
    ensures k == EducationKind || k == ExperienceKind || k == InternshipKind || k == ProjectKind ==>
      r != "" && (Get(f, "startDate") == "" ==> r == EndOrPresent(Get(f, "endDate")))
  {
    match k
    case CertificateKind => Get(f, "date")
    case AchievementKind => Get(f, "date")
    case LanguageKind => ""
    case _ => DateRange(Get(f, "startDate"), Get(f, "endDate"))
  }

  /** The 10-point description; certificates have none. */
  function Details(k: Kind, f: Fields): (r: string)
    ensures r != "" ==> k != CertificateKind && k != LanguageKind && r == Get(f, "description")
  {
    if k == CertificateKind || k == LanguageKind then "" else Get(f, "description")
  }

  /** The `addText` calls for one kept entry, in order: a language is one 11-point line;
      any other entry is its primary property in 12-point bold followed by its subtitle,
      date line and description, each only when it is not empty. */
  function EntryBlocks(k: Kind, e: Entry): (r: seq<Block>)
    ensures r != [] && r[0].Text?
    ensures k != LanguageKind ==> r[0] == Text(Get(e.fields, PrimaryKey(k)), 12, Bold)
    ensures forall i :: 1 <= i < |r| ==> r[i].Text? && r[i].size < 12
  {
    var f := e.fields;
    if k == LanguageKind then [Text(LanguageLine(f), 11, Normal)]
    else
      [Text(Get(f, PrimaryKey(k)), 12, Bold)] + Opt(Subtitle(k, f), 11, Italic)
      + Opt(DateLine(k, f), 10, Normal) + Opt(Details(k, f), 10, Normal)
  }

  /** Outside languages, an entry is its title followed by its optional lines. */
  lemma EntryBlocksTitled(k: Kind, e: Entry)
    requires k != LanguageKind
    ensures var f := e.fields;
            EntryBlocks(k, e) == [Text(Get(f, PrimaryKey(k)), 12, Bold)]
              + (Opt(Subtitle(k, f), 11, Italic) + Opt(DateLine(k, f), 10, Normal) + Opt(Details(k, f), 10, Normal))
  {
    var f := e.fields;
    var t := [Text(Get(f, PrimaryKey(k)), 12, Bold)];
    var o1, o2, o3 := Opt(Subtitle(k, f), 11, Italic), Opt(DateLine(k, f), 10, Normal), Opt(Details(k, f), 10, Normal);
    assert EntryBlocks(k, e) == t + o1 + o2 + o3;
    ConcatAssoc(t + o1, o2, o3);
    ConcatAssoc(t, o1, o2 + o3);
    ConcatAssoc(o1, o2, o3);
  }

  /** The blocks of a run of kept entries, one entry after another: at least one per entry,
      starting with the first entry's. */
  function EntriesBlocks(k: Kind, kept: seq<Entry>): (r: seq<Block>)
    ensures |r| >= |kept|
    ensures kept != [] ==> r[0] == EntryBlocks(k, kept[0])[0]
  {
    if kept == [] then [] else EntryBlocks(k, kept[0]) + EntriesBlocks(k, kept[1..])
  }

  /** A list section: its heading and its kept entries, or nothing when no entry is kept. */
  function SectionBlocks(k: Kind, es: seq<Entry>): (r: seq<Block>)
    ensures r == [] <==> Kept(k, es) == []
    ensures r != [] ==> r[0] == Text(Heading(k), 14, Bold) && |r| > |Kept(k, es)|
  {
    var kept := Kept(k, es);
    if kept == [] then [] else [Text(Heading(k), 14, Bold)] + EntriesBlocks(k, kept)
  }

  /** The name in 20-point bold, when there is a name. */
  function HeaderBlocks(p: Fields): (r: seq<Block>)
    ensures r == [] <==> IsBlank(Get(p, "firstName")) && IsBlank(Get(p, "lastName"))
    ensures r != [] ==> r == [Text(FullName(p), 20, Bold)]
  {
    Opt(FullName(p), 20, Bold)
  }

  /** The contact line in 10 points and the rule under it, when a contact property is
      filled in. */
  function ContactBlocks(p: Fields): (r: seq<Block>)
    ensures r == [] <==> ContactParts(p) == []
    ensures r == [] <==>
      Get(p, "email") == "" && Get(p, "phone") == "" && Get(p, "address") == "" && Get(p, "linkedin") == ""
    ensures r != [] ==> r == [Text(ContactLine(p), 10, Normal), Rule]
  {
    if ContactParts(p) != [] then [Text(ContactLine(p), 10, Normal), Rule] else []
  }

  /** The summary heading and the summary in 11 points, when there is a summary. */
  function SummaryBlocks(p: Fields): (r: seq<Block>)
    ensures r == [] <==> Get(p, "summary") == ""
    ensures r != [] ==> r == [Text("PROFESSIONAL SUMMARY", 14, Bold), Text(Get(p, "summary"), 11, Normal)]
  {
    if Get(p, "summary") != "" then [Text("PROFESSIONAL SUMMARY", 14, Bold), Text(Get(p, "summary"), 11, Normal)]
    else []
  }

  /** The skills heading and one 11-point line listing the skills, starting with the
      first, when there is a skill. */
  function SkillsBlocks(skills: seq<string>): (r: seq<Block>)
    ensures r == [] <==> skills == []
    ensures r != [] ==> |r| == 2 && r[0] == Text("SKILLS", 14, Bold) && r[1].Text? && skills[0] <= r[1].text
  {
    if |skills| > 0 then [Text("SKILLS", 14, Bold), Text(Join(skills, ", "), 11, Normal)] else []
  }

  /** Everything the direct-text export writes for a record, in order. It writes nothing
      exactly when the names are blank, no contact property, summary or skill is filled in
      and no entry of any list section is kept. */
  function Content(r: Resume): (c: seq<Block>)
    ensures var p := r.personalInfo;
      c == [] <==>
        IsBlank(Get(p, "firstName")) && IsBlank(Get(p, "lastName")) && ContactParts(p) == []
        && Get(p, "summary") == "" && r.skills == []
        && Kept(EducationKind, r.education) == [] && Kept(ExperienceKind, r.experience) == []
        && Kept(InternshipKind, r.internships) == [] && Kept(ProjectKind, r.projects) == []
        && Kept(LanguageKind, r.languages) == [] && Kept(CertificateKind, r.certificates) == []
        && Kept(AchievementKind, r.achievements) == []
  {
    HeaderBlocks(r.personalInfo) + ContactBlocks(r.personalInfo) + SummaryBlocks(r.personalInfo)
    + SectionBlocks(EducationKind, r.education) + SectionBlocks(ExperienceKind, r.experience)
    + SectionBlocks(InternshipKind, r.internships) + SectionBlocks(ProjectKind, r.projects)
    + SkillsBlocks(r.skills) + SectionBlocks(LanguageKind, r.languages)
    + SectionBlocks(CertificateKind, r.certificates) + SectionBlocks(AchievementKind, r.achievements)
  }

  // ---------------------------------------------------------------------------------------
  // Properties of the content

  lemma ContentLength(r: Resume)
    ensures var p := r.personalInfo;
      |Content(r)| == |HeaderBlocks(p)| + |ContactBlocks(p)| + |SummaryBlocks(p)|
      + |SectionBlocks(EducationKind, r.education)| + |SectionBlocks(ExperienceKind, r.experience)|
      + |SectionBlocks(InternshipKind, r.internships)| + |SectionBlocks(ProjectKind, r.projects)|
      + |SkillsBlocks(r.skills)| + |SectionBlocks(LanguageKind, r.languages)|
      + |SectionBlocks(CertificateKind, r.certificates)| + |SectionBlocks(AchievementKind, r.achievements)|
  {
  }

  /** A section is written exactly when some entry fills its primary property with
      non-blank text, and then it starts with its heading. */
  lemma SectionWrittenIff(k: Kind, es: seq<Entry>)
    ensures SectionBlocks(k, es) != [] <==> exists i :: 0 <= i < |es| && !IsBlank(Get(es[i].fields, PrimaryKey(k)))
    ensures SectionBlocks(k, es) != [] ==> SectionBlocks(k, es)[0] == Text(Heading(k), 14, Bold)
  {
    var kept := Kept(k, es);
    if kept != [] {
      assert kept[0] in es;
    } else {
      forall i | 0 <= i < |es| ensures IsBlank(Get(es[i].fields, PrimaryKey(k))) {
        assert es[i] in es;
      }
    }
  }

  /** The contact line and its rule appear together, exactly when some contact property is
      filled in; the line then starts with the first filled property's label. */
  lemma ContactWrittenIff(p: Fields)
    ensures ContactBlocks(p) != [] <==>
      Get(p, "email") != "" || Get(p, "phone") != "" || Get(p, "address") != "" || Get(p, "linkedin") != ""
    ensures ContactBlocks(p) != [] ==> |ContactBlocks(p)| == 2 && ContactBlocks(p)[1] == Rule
    ensures Get(p, "email") != "" ==> "Email: " + Get(p, "email") <= ContactLine(p)
  {
    assert ContactOrder()[0].key == "email" && ContactOrder()[1].key == "phone";
    assert ContactOrder()[2].key == "address" && ContactOrder()[3].key == "linkedin";
    var parts := ContactParts(p);
    if Get(p, "email") != "" && |parts| > 1 {
      assert parts[0] == "Email: " + Get(p, "email");
    }
  }

  /** Two records that differ only in entry ids produce the same content: ids, which come
      from the clock, never influence the export. */
  lemma ContentIgnoresIds(a: Resume, b: Resume)
    requires a.personalInfo == b.personalInfo && a.skills == b.skills
    requires SameFields(a.education, b.education) && SameFields(a.experience, b.experience)
    requires SameFields(a.internships, b.internships) && SameFields(a.projects, b.projects)
    requires SameFields(a.languages, b.languages) && SameFields(a.certificates, b.certificates)
    requires SameFields(a.achievements, b.achievements)
    ensures Content(a) == Content(b)
  {
    SectionIgnoresIds(EducationKind, a.education, b.education);
    SectionIgnoresIds(ExperienceKind, a.experience, b.experience);
    SectionIgnoresIds(InternshipKind, a.internships, b.internships);
    SectionIgnoresIds(ProjectKind, a.projects, b.projects);
    SectionIgnoresIds(LanguageKind, a.languages, b.languages);
    SectionIgnoresIds(CertificateKind, a.certificates, b.certificates);
    SectionIgnoresIds(AchievementKind, a.achievements, b.achievements);
  }

  /** Two collections whose entries agree position by position on everything but the id. */
  predicate SameFields(xs: seq<Entry>, ys: seq<Entry>) {
    |xs| == |ys| && forall i :: 0 <= i < |xs| ==> xs[i].fields == ys[i].fields
  }

  lemma SectionIgnoresIds(k: Kind, xs: seq<Entry>, ys: seq<Entry>)
    requires SameFields(xs, ys)
    ensures SectionBlocks(k, xs) == SectionBlocks(k, ys)
  {
    KeptIgnoresIds(k, xs, ys);
    EntriesIgnoreIds(k, Kept(k, xs), Kept(k, ys));
  }

  lemma {:induction false} KeptIgnoresIds(k: Kind, xs: seq<Entry>, ys: seq<Entry>)
    requires SameFields(xs, ys)
    ensures SameFields(Kept(k, xs), Kept(k, ys))
  {
    if xs != [] {
      var f := Keeps(k);
      TailSameFields(xs, ys);
      KeptIgnoresIds(k, xs[1..], ys[1..]);
      FilterUnfold(xs, f);
      FilterUnfold(ys, f);
      assert f(xs[0]) == f(ys[0]);
      if f(xs[0]) {
        ConsSameFields(xs[0], ys[0], Kept(k, xs[1..]), Kept(k, ys[1..]));
      }
    }
  }

  lemma TailSameFields(xs: seq<Entry>, ys: seq<Entry>)
    requires SameFields(xs, ys) && xs != []
    ensures SameFields(xs[1..], ys[1..])
  {
    forall i | 0 <= i < |xs| - 1 ensures xs[1..][i].fields == ys[1..][i].fields {
      assert xs[1..][i] == xs[i + 1] && ys[1..][i] == ys[i + 1];
    }
  }

  lemma ConsSameFields(x: Entry, y: Entry, xs: seq<Entry>, ys: seq<Entry>)
    requires x.fields == y.fields && SameFields(xs, ys)
    ensures SameFields([x] + xs, [y] + ys)
  {
    forall i | 0 < i < |xs| + 1 ensures ([x] + xs)[i].fields == ([y] + ys)[i].fields {
      assert ([x] + xs)[i] == xs[i - 1] && ([y] + ys)[i] == ys[i - 1];
    }
  }

  lemma {:induction false} EntriesIgnoreIds(k: Kind, xs: seq<Entry>, ys: seq<Entry>)
    requires SameFields(xs, ys)
    ensures EntriesBlocks(k, xs) == EntriesBlocks(k, ys)
  {
    if xs != [] {
      TailSameFields(xs, ys);
      EntriesIgnoreIds(k, xs[1..], ys[1..]);
      assert EntryBlocks(k, xs[0]) == EntryBlocks(k, ys[0]);
    }
  }

  /** Only one " - " goes: a leading one when there is one (a trailing one then stays),
      otherwise a trailing one, otherwise nothing. */
  lemma StripDashOneMatch(s: string)
    ensures " - " <= s ==> s == " - " + StripDash(s)
    ensures !(" - " <= s) && |s| >= 3 && s[|s| - 3..] == " - " ==> s == StripDash(s) + " - "
    ensures !(" - " <= s) && !(|s| >= 3 && s[|s| - 3..] == " - ") ==> StripDash(s) == s
  {
  }

  /** The date line in the usual cases: "2020-01" to an empty end date reads
      "2020-01 - Present", and with both dates empty the line reads "Present". */
  lemma DateRangeExamples()
    ensures DateRange("2020-01", "") == "2020-01 - Present"
    ensures DateRange("", "") == "Present"
    ensures DateRange("2019", "2021") == "2019 - 2021"
  {
  }
}
