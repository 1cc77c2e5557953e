/** The three list transformations the reducer applies to a collection: append an entry
    stamped with an id, shallow-merge a patch into every entry with the patch's id, and
    drop every entry with a given id. */
module EntryList {
  import opened ResumeData
  import opened Seqs

  /** The payload of an ADD_* action: its properties and, when it carries one, its own id. */
  datatype NewEntry = NewEntry(id: Option<int>, fields: Fields)

  /** `{ id: Date.now(), ...payload }`: the payload's id wins over the clock value. */
  function Stamp(p: NewEntry, now: int): (e: Entry)
    ensures e.fields == p.fields
    ensures p.id.Some? ==> e.id == p.id.value
    ensures p.id.None? ==> e.id == now
  {
    Entry(if p.id.Some? then p.id.value else now, p.fields)
  }

  /** `[...es, { id: Date.now(), ...payload }]`: every earlier entry kept in place and one
      new entry at the end. */
  function AddEntry(es: seq<Entry>, p: NewEntry, now: int): (r: seq<Entry>)
    ensures |r| == |es| + 1 && r[..|es|] == es
    ensures r[|es|] == Stamp(p, now)
  {
    es + [Stamp(p, now)]
  }

  /** `{ ...e, ...patch }` when the ids agree: the patch's properties override, every other
      property and the id stay. */
  function Merge(e: Entry, patch: Entry): (m: Entry)
    requires e.id == patch.id
    ensures m.id == e.id
    ensures forall k :: k in patch.fields ==> k in m.fields && m.fields[k] == patch.fields[k]
    ensures forall k :: k !in patch.fields ==> (k in m.fields <==> k in e.fields)
    ensures forall k :: k !in patch.fields && k in e.fields ==> m.fields[k] == e.fields[k]
  {
    Entry(e.id, e.fields + patch.fields)
  }

  /** `es.map(e => e.id === patch.id ? { ...e, ...patch } : e)`. */
  function UpdateEntries(es: seq<Entry>, patch: Entry): (r: seq<Entry>)
    ensures |r| == |es|
    ensures forall i :: 0 <= i < |es| ==> r[i].id == es[i].id
    ensures forall i :: 0 <= i < |es| && es[i].id != patch.id ==> r[i] == es[i]
    ensures forall i :: 0 <= i < |es| && es[i].id == patch.id ==> r[i] == Merge(es[i], patch)
  {
    if es == [] then []
    else [if es[0].id == patch.id then Merge(es[0], patch) else es[0]] + UpdateEntries(es[1..], patch)
  }

  /** `es.filter(e => e.id !== id)`. */
  function RemoveEntries(es: seq<Entry>, id: int): (r: seq<Entry>)
    ensures forall e :: e in r <==> e in es && e.id != id
  {
    Filter(es, (e: Entry) => e.id != id)
  }

  /** An update whose id matches no entry returns an equal collection. */
  lemma UpdateAbsentIsNoop(es: seq<Entry>, patch: Entry)
    requires forall i :: 0 <= i < |es| ==> es[i].id != patch.id
    ensures UpdateEntries(es, patch) == es
  {
  }

  /** Applying the same patch twice is applying it once. */
  lemma UpdateIdempotent(es: seq<Entry>, patch: Entry)
    ensures UpdateEntries(UpdateEntries(es, patch), patch) == UpdateEntries(es, patch)
  {
    var once := UpdateEntries(es, patch);
    forall i | 0 <= i < |es| && es[i].id == patch.id
      ensures Merge(once[i], patch) == once[i]
    {
      assert once[i].fields + patch.fields == once[i].fields;
    }
  }

  /** Removing twice with the same id is removing once. */
  lemma RemoveIdempotent(es: seq<Entry>, id: int)
    ensures RemoveEntries(RemoveEntries(es, id), id) == RemoveEntries(es, id)
  {
    FilterIdempotent(es, (e: Entry) => e.id != id);
  }

  /** Removing keeps the entries with another id, in their original order, with their
      multiplicities. */
  lemma RemoveKeepsOrder(es: seq<Entry>, id: int)
    ensures IsSubsequence(RemoveEntries(es, id), es)
    ensures forall e :: multiset(RemoveEntries(es, id))[e] == if e.id != id then multiset(es)[e] else 0
  {
    FilterIsSubsequence(es, (e: Entry) => e.id != id);
    forall e ensures multiset(RemoveEntries(es, id))[e] == if e.id != id then multiset(es)[e] else 0 {
      FilterCount(es, (e: Entry) => e.id != id, e);
    }
  }

  /** Removing an id no entry has returns an equal collection. */
  lemma RemoveAbsentIsNoop(es: seq<Entry>, id: int)
    requires forall i :: 0 <= i < |es| ==> es[i].id != id
    ensures RemoveEntries(es, id) == es
  {
    FilterKeepsAll(es, (e: Entry) => e.id != id);
  }

  /** Adding an entry whose id is new and then removing that id restores the collection. */
  lemma AddThenRemove(es: seq<Entry>, p: NewEntry, now: int)
    requires forall i :: 0 <= i < |es| ==> es[i].id != Stamp(p, now).id
    ensures RemoveEntries(AddEntry(es, p, now), Stamp(p, now).id) == es
  {
    var f := (e: Entry) => e.id != Stamp(p, now).id;
    FilterAppend(es, [Stamp(p, now)], f);
    FilterKeepsAll(es, f);
    FilterUnfold([Stamp(p, now)], f);
  }

  /** Adding keeps ids distinct exactly when the stamped id is new. */
  lemma AddKeepsDistinct(es: seq<Entry>, p: NewEntry, now: int)
    requires DistinctIds(es)
    ensures DistinctIds(AddEntry(es, p, now)) <==> forall i :: 0 <= i < |es| ==> es[i].id != Stamp(p, now).id
  {
    var r := AddEntry(es, p, now);
    assert forall i :: 0 <= i < |es| ==> r[i] == es[i];
  }

  /** Ids are not unique: two additions with the same clock value (or a payload that brings
      its own id) produce two entries with one id. */
  lemma AddMayDuplicateIds(es: seq<Entry>, f1: Fields, f2: Fields, now: int)
    ensures !DistinctIds(AddEntry(AddEntry(es, NewEntry(None, f1), now), NewEntry(None, f2), now))
  {
    var r := AddEntry(AddEntry(es, NewEntry(None, f1), now), NewEntry(None, f2), now);
    assert r[|es|].id == now == r[|es| + 1].id;
  }

  /** Update keeps ids distinct and removal keeps them distinct. */
  lemma EditsKeepDistinct(es: seq<Entry>, patch: Entry, id: int)
    requires DistinctIds(es)
    ensures DistinctIds(UpdateEntries(es, patch))
    ensures DistinctIds(RemoveEntries(es, id))
  {
    RemoveKeepsOrder(es, id);
    SubsequenceKeepsDistinct(RemoveEntries(es, id), es);
  }

  lemma {:induction false} SubsequenceKeepsDistinct(a: seq<Entry>, b: seq<Entry>)
    requires IsSubsequence(a, b) && DistinctIds(b)
    ensures DistinctIds(a)
  {
    if a != [] && b != [] {
      assert DistinctIds(b[1..]) by {
        forall i, j | 0 <= i < j < |b| - 1 ensures b[1..][i].id != b[1..][j].id {
          assert b[1..][i] == b[i + 1] && b[1..][j] == b[j + 1];
        }
      }
      if a[0] == b[0] && IsSubsequence(a[1..], b[1..]) {
        SubsequenceKeepsDistinct(a[1..], b[1..]);
        SubsequenceMembers(a[1..], b[1..]);
        forall j | 0 < j < |a| ensures a[0].id != a[j].id {
          assert a[j] == a[1..][j - 1];
          assert a[j] in b[1..];
          var k :| 0 <= k < |b| - 1 && b[1..][k] == a[j];
          assert b[k + 1] == a[j];
        }
      } else {
        SubsequenceKeepsDistinct(a, b[1..]);
      }
    }
  }
}
