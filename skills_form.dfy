/** The list logic of the skills form: `addSkill` trims the input and appends it unless it
    is blank or already listed; `removeSkill` drops every occurrence of one skill. Both
    compute a new list that the form hands to UPDATE_SKILLS. */
module SkillsForm {
  import opened JsText
  import opened Seqs

  /** No skill appears twice. */
  predicate NoDuplicates(skills: seq<string>) {
    forall i, j :: 0 <= i < j < |skills| ==> skills[i] != skills[j]
  }

  /** `addSkill()` with the text of the input box. */
  function AddSkill(skills: seq<string>, input: string): (r: seq<string>)
    ensures IsBlank(input) ==> r == skills
    ensures Trim(input) in skills ==> r == skills
    ensures !IsBlank(input) && Trim(input) !in skills ==> r == skills + [Trim(input)]
  {
    var t := Trim(input);
    if t != "" && t !in skills then skills + [t] else skills
  }

  /** `removeSkill(s)`. */
  function RemoveSkill(skills: seq<string>, s: string): (r: seq<string>)
    ensures s !in r
    ensures forall x :: x != s ==> (x in r <==> x in skills)
  {
    Filter(skills, (x: string) => x != s)
  }

  /** What `addSkill` adds is never blank and never padded with white space. */
  lemma AddedSkillIsTrimmed(skills: seq<string>, input: string)
    requires AddSkill(skills, input) != skills
    ensures |AddSkill(skills, input)| == |skills| + 1
    ensures var t := AddSkill(skills, input)[|skills|];
            t != "" && !IsSpace(t[0]) && !IsSpace(t[|t| - 1])
  {
  }

  /** A list without duplicates stays without duplicates after `addSkill`. */
  lemma AddKeepsNoDuplicates(skills: seq<string>, input: string)
    requires NoDuplicates(skills)
    ensures NoDuplicates(AddSkill(skills, input))
  {
    var r := AddSkill(skills, input);
    if r != skills {
      forall i | 0 <= i < |skills| ensures r[i] != r[|skills|] {
        assert r[i] == skills[i];
      }
    }
  }

  /** `removeSkill` keeps the other skills in their order with their multiplicities, and a
      second removal of the same skill changes nothing. */
  lemma RemoveKeepsOthers(skills: seq<string>, s: string)
    ensures IsSubsequence(RemoveSkill(skills, s), skills)
    ensures forall x :: x != s ==> multiset(RemoveSkill(skills, s))[x] == multiset(skills)[x]
    ensures RemoveSkill(RemoveSkill(skills, s), s) == RemoveSkill(skills, s)
  {
    FilterIsSubsequence(skills, (x: string) => x != s);
    forall x | x != s ensures multiset(RemoveSkill(skills, s))[x] == multiset(skills)[x] {
      FilterCount(skills, (x: string) => x != s, x);
    }
    FilterIdempotent(skills, (x: string) => x != s);
  }

  /** Adding a skill that was not listed and then removing it restores the list. */
  lemma AddThenRemove(skills: seq<string>, input: string)
    requires !IsBlank(input) && Trim(input) !in skills
    ensures RemoveSkill(AddSkill(skills, input), Trim(input)) == skills
  {
    var t := Trim(input);
    var keep := (x: string) => x != t;
    FilterAppend(skills, [t], keep);
    FilterKeepsAll(skills, keep);
    FilterUnfold([t], keep);
  }
}
