/** The store's transition function `resumeReducer(state, action)`: a pure function from the
    current record and one action to the next record. The string-tagged actions become one
    datatype; the eighteen ADD_/UPDATE_/REMOVE_ tags are one constructor each, parameterised
    by the collection they name. The clock value `Date.now()` read by ADD_* is the parameter
    `now`. */
module ResumeReducer {
  import opened ResumeData
  import opened Seqs
  import opened EntryList

  datatype Action =
    | UpdatePersonalInfo(info: Fields)             // UPDATE_PERSONAL_INFO
    | Add(section: Section, payload: NewEntry)     // ADD_EDUCATION, ADD_EXPERIENCE, ...
    | Update(section: Section, patch: Entry)       // UPDATE_EDUCATION, ...: payload { id, ...updates }
    | Remove(section: Section, id: int)            // REMOVE_EDUCATION, ...: payload is the id
    | UpdateLanguages(languages: seq<Entry>)       // UPDATE_LANGUAGES
    | UpdateSkills(skills: seq<string>)            // UPDATE_SKILLS
    | LoadResume(resume: Resume)                   // LOAD_RESUME
    | Unknown(tag: string)                         // any other action type

  /** The next record. Every action changes only its own part of the record:
      personal information is shallow-merged, a collection action rewrites only that
      collection, the two list actions replace only their list, LOAD_RESUME replaces
      everything and an unknown action changes nothing. */
  function Reduce(state: Resume, action: Action, now: int): (r: Resume)
    ensures action.UpdatePersonalInfo? ==>
      r == state.(personalInfo := r.personalInfo)
      && r.personalInfo.Keys == state.personalInfo.Keys + action.info.Keys
      && (forall k :: k in action.info ==> r.personalInfo[k] == action.info[k])
      && (forall k :: k in state.personalInfo && k !in action.info ==> r.personalInfo[k] == state.personalInfo[k])
    ensures action.Add? || action.Update? || action.Remove? ==>
      r.personalInfo == state.personalInfo && r.languages == state.languages && r.skills == state.skills
      && (forall t :: t != action.section ==> SectionOf(r, t) == SectionOf(state, t))
    ensures action.Add? ==> SectionOf(r, action.section) == AddEntry(SectionOf(state, action.section), action.payload, now)
    ensures action.Update? ==> SectionOf(r, action.section) == UpdateEntries(SectionOf(state, action.section), action.patch)
    ensures action.Remove? ==> SectionOf(r, action.section) == RemoveEntries(SectionOf(state, action.section), action.id)
    ensures action.UpdateLanguages? ==> r == state.(languages := action.languages)
    ensures action.UpdateSkills? ==> r == state.(skills := action.skills)
    ensures action.LoadResume? ==> r == action.resume
    ensures action.Unknown? ==> r == state
  {
    match action
    case UpdatePersonalInfo(info) => state.(personalInfo := state.personalInfo + info)
    case Add(s, p) => WithSection(state, s, AddEntry(SectionOf(state, s), p, now))
    case Update(s, patch) => WithSection(state, s, UpdateEntries(SectionOf(state, s), patch))
    case Remove(s, id) => WithSection(state, s, RemoveEntries(SectionOf(state, s), id))
    case UpdateLanguages(langs) => state.(languages := langs)
    case UpdateSkills(skills) => state.(skills := skills)
    case LoadResume(resume) => resume
    case Unknown(_) => state
  }

  /** ADD_* grows the collection by one entry at the end; the entry carries the payload's
      properties and the payload's id when it has one, the clock value otherwise. */
  lemma AddAppendsOne(state: Resume, s: Section, p: NewEntry, now: int)
    ensures var before := SectionOf(state, s);
            var after := SectionOf(Reduce(state, Add(s, p), now), s);
            |after| == |before| + 1 && after[..|before|] == before
            && after[|before|].fields == p.fields
            && after[|before|].id == (if p.id.Some? then p.id.value else now)
  {
  }

  /** UPDATE_* with an id no entry of the collection has returns an equal record. */
  lemma UpdateAbsentIdIsNoop(state: Resume, s: Section, patch: Entry, now: int)
    requires forall i :: 0 <= i < |SectionOf(state, s)| ==> SectionOf(state, s)[i].id != patch.id
    ensures Reduce(state, Update(s, patch), now) == state
  {
    UpdateAbsentIsNoop(SectionOf(state, s), patch);
    match s
    case Education =>
    case Experience =>
    case Internships =>
    case Projects =>
    case Certificates =>
    case Achievements =>
  }

  /** REMOVE_* applied twice with the same id equals applying it once. */
  lemma RemoveTwiceIsRemoveOnce(state: Resume, s: Section, id: int, now1: int, now2: int)
    ensures Reduce(Reduce(state, Remove(s, id), now1), Remove(s, id), now2) == Reduce(state, Remove(s, id), now1)
  {
    RemoveIdempotent(SectionOf(state, s), id);
    match s
    case Education =>
    case Experience =>
    case Internships =>
    case Projects =>
    case Certificates =>
    case Achievements =>
  }

  /** ADD_* with a new id followed by REMOVE_* of that id restores the record. */
  lemma AddThenRemoveRestores(state: Resume, s: Section, p: NewEntry, now: int)
    requires forall i :: 0 <= i < |SectionOf(state, s)| ==> SectionOf(state, s)[i].id != Stamp(p, now).id
    ensures Reduce(Reduce(state, Add(s, p), now), Remove(s, Stamp(p, now).id), now) == state
  {
    AddThenRemove(SectionOf(state, s), p, now);
    match s
    case Education =>
    case Experience =>
    case Internships =>
    case Projects =>
    case Certificates =>
    case Achievements =>
  }

  /** Every collection, and the languages list, holds distinct ids. */
  predicate WellKeyed(r: Resume) {
    (forall s :: DistinctIds(SectionOf(r, s))) && DistinctIds(r.languages)
  }

  /** UPDATE_* and REMOVE_* keep ids distinct, and ADD_* does so when the stamped id is new;
      the store itself does not guarantee this (see EntryList.AddMayDuplicateIds). */
  lemma EditsPreserveWellKeyed(state: Resume, a: Action, now: int)
    requires WellKeyed(state)
    requires a.Add? || a.Update? || a.Remove?
    requires a.Add? ==> forall i :: 0 <= i < |SectionOf(state, a.section)| ==>
      SectionOf(state, a.section)[i].id != Stamp(a.payload, now).id
    ensures WellKeyed(Reduce(state, a, now))
  {
    var r := Reduce(state, a, now);
    forall t ensures DistinctIds(SectionOf(r, t)) {
      if t == a.section {
        match a
        case Add(_, p) => AddKeepsDistinct(SectionOf(state, t), p, now);
        case Update(_, patch) => EditsKeepDistinct(SectionOf(state, t), patch, 0);
        case Remove(_, id) => EditsKeepDistinct(SectionOf(state, t), Entry(id, map[]), id);
      }
    }
  }

  /** The scaffold record is well keyed. */
  lemma InitialWellKeyed()
    ensures WellKeyed(InitialResume())
  {
  }
}
