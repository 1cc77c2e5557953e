/** The list logic of the languages form: add a blank language, set one property of the
    entries with a given id, and remove the entries with a given id unless only one entry
    is left. Each computes a new list that the form hands to UPDATE_LANGUAGES; the new
    entry's id is the clock value `Date.now()`, passed in as `now`. */
module LanguagesForm {
  import opened ResumeData
  import opened Seqs
  import opened EntryList

  /** The two properties the form edits. */
  datatype LanguageField = Language | Proficiency

  function Key(f: LanguageField): string {
    match f
    case Language => "language"
    case Proficiency => "proficiency"
  }

  /** `handleAddLanguage()`. */
  function AddLanguage(langs: seq<Entry>, now: int): (r: seq<Entry>)
    ensures |r| == |langs| + 1 && r[..|langs|] == langs
    ensures r[|langs|].id == now
    ensures r[|langs|].fields == map["language" := "", "proficiency" := ""]
  {
    langs + [Entry(now, map["language" := "", "proficiency" := ""])]
  }

  /** `handleUpdateLanguage(id, field, value)`: `{ ...lang, [field]: value }` on every entry
      with that id; the same shallow merge as UPDATE_* with a one-property patch. */
  function UpdateLanguage(langs: seq<Entry>, id: int, f: LanguageField, value: string): (r: seq<Entry>)
    ensures |r| == |langs|
    ensures forall i :: 0 <= i < |langs| ==> r[i].id == langs[i].id
    ensures forall i :: 0 <= i < |langs| && langs[i].id != id ==> r[i] == langs[i]
    ensures forall i :: 0 <= i < |langs| && langs[i].id == id ==>
      r[i].fields == langs[i].fields[Key(f) := value]
  {
    var patch := map[Key(f) := value];
    assert forall m: Fields :: m + patch == m[Key(f) := value];
    UpdateEntries(langs, Entry(id, patch))
  }

  /** `handleRemoveLanguage(id)`: a no-op while at most one entry is listed. */
  function RemoveLanguage(langs: seq<Entry>, id: int): (r: seq<Entry>)
    ensures |langs| <= 1 ==> r == langs
    ensures |langs| > 1 ==> forall e :: e in r <==> e in langs && e.id != id
  {
    if |langs| > 1 then RemoveEntries(langs, id) else langs
  }

  /** Updating an id that no entry has leaves the list unchanged. */
  lemma UpdateAbsentIsNoop(langs: seq<Entry>, id: int, f: LanguageField, value: string)
    requires forall i :: 0 <= i < |langs| ==> langs[i].id != id
    ensures UpdateLanguage(langs, id, f, value) == langs
  {
  }

  /** With more than one entry, removal keeps the other entries in order and with their
      multiplicities. */
  lemma RemoveKeepsOthers(langs: seq<Entry>, id: int)
    requires |langs| > 1
    ensures IsSubsequence(RemoveLanguage(langs, id), langs)
    ensures forall e: Entry :: e.id != id ==> multiset(RemoveLanguage(langs, id))[e] == multiset(langs)[e]
  {
    RemoveKeepsOrder(langs, id);
  }

  /** When ids are distinct, removal drops at most one entry, so a non-empty list never
      becomes empty. */
  lemma RemoveNeverEmpties(langs: seq<Entry>, id: int)
    requires DistinctIds(langs)
    ensures |RemoveLanguage(langs, id)| >= |langs| - 1
    ensures |langs| >= 1 ==> |RemoveLanguage(langs, id)| >= 1
  {
    if |langs| > 1 {
      FilterDropsAtMostOne(langs, (e: Entry) => e.id != id);
    }
  }

  /** Adding a language with a new id and then removing that id restores a non-empty list
      (from an empty list the added entry is the only one, and the guard keeps it). */
  lemma AddThenRemove(langs: seq<Entry>, now: int)
    requires |langs| >= 1
    requires forall i :: 0 <= i < |langs| ==> langs[i].id != now
    ensures RemoveLanguage(AddLanguage(langs, now), now) == langs
  {
    var p := NewEntry(Some(now), map["language" := "", "proficiency" := ""]);
    assert AddLanguage(langs, now) == AddEntry(langs, p, now);
    EntryList.AddThenRemove(langs, p, now);
  }
}
