/** The resume record held by the store: personal information, six entry collections,
    the languages list and the skills list. JavaScript objects built with spread syntax are
    modelled as maps from property names to string values; the numeric `id` of an entry is
    kept apart from its other properties. */
module ResumeData {

  datatype Option<T> = None | Some(value: T)

  /** The string-valued properties of a JavaScript object. */
  type Fields = map<string, string>

  /** `obj.key || ''`: a missing property reads as the empty string. */
  function Get(f: Fields, key: string): string {
    if key in f then f[key] else ""
  }

  /** One element of a collection: its `id` and its other properties. */
  datatype Entry = Entry(id: int, fields: Fields)

  datatype Resume = Resume(
    personalInfo: Fields,
    education: seq<Entry>,
    experience: seq<Entry>,
    internships: seq<Entry>,
    projects: seq<Entry>,
    languages: seq<Entry>,
    certificates: seq<Entry>,
    achievements: seq<Entry>,
    skills: seq<string>)

  /** The six collections edited entry by entry through ADD_*, UPDATE_* and REMOVE_* actions. */
  datatype Section = Education | Experience | Internships | Projects | Certificates | Achievements

  function SectionOf(r: Resume, s: Section): seq<Entry> {
    match s
    case Education => r.education
    case Experience => r.experience
    case Internships => r.internships
    case Projects => r.projects
    case Certificates => r.certificates
    case Achievements => r.achievements
  }

  /** `r` with collection `s` replaced and every other part kept. */
  function WithSection(r: Resume, s: Section, es: seq<Entry>): (r': Resume)
    ensures SectionOf(r', s) == es
    ensures forall t :: t != s ==> SectionOf(r', t) == SectionOf(r, t)
    ensures r'.personalInfo == r.personalInfo && r'.languages == r.languages && r'.skills == r.skills
  {
    match s
    case Education => r.(education := es)
    case Experience => r.(experience := es)
    case Internships => r.(internships := es)
    case Projects => r.(projects := es)
    case Certificates => r.(certificates := es)
    case Achievements => r.(achievements := es)
  }

  /** No two entries of the collection share an id. */
  predicate DistinctIds(es: seq<Entry>) {
    forall i, j :: 0 <= i < j < |es| ==> es[i].id != es[j].id
  }

  function Blank(id: int, keys: seq<string>): Entry {
    Entry(id, map k | k in keys :: "")
  }

  /** The scaffold record a first session starts from: one blank entry with id 1 in every
      collection and no skills. */
  function InitialResume(): (r: Resume)
    ensures r.skills == [] && forall key :: Get(r.personalInfo, key) == ""
    ensures forall s :: |SectionOf(r, s)| == 1 && SectionOf(r, s)[0].id == 1
                        && forall key :: Get(SectionOf(r, s)[0].fields, key) == ""
    ensures |r.languages| == 1 && r.languages[0].id == 1
            && forall key :: Get(r.languages[0].fields, key) == ""
  {
    Resume(
      map k | k in ["firstName", "lastName", "email", "phone", "address", "linkedin", "summary"] :: "",
      [Blank(1, ["institution", "degree", "field", "startDate", "endDate", "description"])],
      [Blank(1, ["company", "position", "startDate", "endDate", "description"])],
      [Blank(1, ["company", "position", "startDate", "endDate", "description"])],
      [Blank(1, ["title", "description", "technologies", "link", "startDate", "endDate"])],
      [Blank(1, ["language", "proficiency"])],
      [Blank(1, ["name", "issuer", "date", "link"])],
      [Blank(1, ["title", "description", "date"])],
      [])
  }
}
