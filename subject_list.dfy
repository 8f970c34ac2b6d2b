/** Editing the list of subjects (components/form/subjects-step.tsx; the
    wizard in components/study-plan-form.tsx edits its list the same way).
    Every handler builds a new list: append a blank subject, drop the
    subjects with a given id unless only one is left, or change one field of
    the subjects with a given id. A fresh id is a parameter standing for
    `crypto.randomUUID()`. */
module SubjectList {
  import opened Options
  import opened Types
  import opened Numerals

  /** A blank subject: three credits, middle confidence, empty texts. */
  function NewSubject(freshId: string): (s: Subject)
    ensures s.id == freshId
    ensures s.name == "" && s.strongAreas == "" && s.weakAreas == ""
    ensures s.credits == 3 && s.confidenceLevel == 3
  {
    Subject(freshId, "", 3, "", "", 3)
  }

  function Ids(subjects: seq<Subject>): set<string>
  {
    set i | 0 <= i < |subjects| :: subjects[i].id
  }

  /** No two subjects share an id; random UUIDs keep it so. */
  predicate UniqueIds(subjects: seq<Subject>)
  {
    forall i, j :: 0 <= i < j < |subjects| ==> subjects[i].id != subjects[j].id
  }

  // ----- add -----------------------------------------------------------------

  /** `[...subjects, blank]`: one blank subject at the end, the others kept. */
  function AddSubject(subjects: seq<Subject>, freshId: string): (r: seq<Subject>)
    ensures |r| == |subjects| + 1
    ensures r[..|subjects|] == subjects
    ensures r[|subjects|] == NewSubject(freshId)
  {
    subjects + [NewSubject(freshId)]
  }

  lemma AddSubjectKeepsIdsUnique(subjects: seq<Subject>, freshId: string)
    requires UniqueIds(subjects) && freshId !in Ids(subjects)
    ensures UniqueIds(AddSubject(subjects, freshId))
    ensures Ids(AddSubject(subjects, freshId)) == Ids(subjects) + {freshId}
  {
    var r := AddSubject(subjects, freshId);
    forall i | 0 <= i < |subjects| ensures r[i].id != freshId {
      assert subjects[i].id in Ids(subjects);
    }
    forall x | x in Ids(subjects) ensures x in Ids(r) {
      var i :| 0 <= i < |subjects| && subjects[i].id == x;
      assert r[i] == subjects[i];
    }
    assert r[|subjects|].id == freshId;
  }

  // ----- remove ----------------------------------------------------------------

  /** How many subjects carry the id. */
  function CountId(subjects: seq<Subject>, id: string): nat
  {
    if subjects == [] then 0
    else (if subjects[0].id == id then 1 else 0) + CountId(subjects[1..], id)
  }

  /** `subjects.filter((s) => s.id !== id)`. */
  function FilterOutId(subjects: seq<Subject>, id: string): (r: seq<Subject>)
    ensures |r| == |subjects| - CountId(subjects, id)
  {
    if subjects == [] then []
    else (if subjects[0].id == id then [] else [subjects[0]]) + FilterOutId(subjects[1..], id)
  }

  /** The filter keeps exactly the subjects whose id differs. */
  lemma {:induction false} FilterOutIdMembers(subjects: seq<Subject>, id: string)
    ensures forall s :: s in FilterOutId(subjects, id) <==> s in subjects && s.id != id
  {
    if subjects != [] {
      FilterOutIdMembers(subjects[1..], id);
      assert subjects == [subjects[0]] + subjects[1..];
    }
  }

  /** Filtering works piece by piece, so the kept subjects stay in order. */
  lemma {:induction false} FilterOutIdAppend(a: seq<Subject>, b: seq<Subject>, id: string)
    ensures FilterOutId(a + b, id) == FilterOutId(a, id) + FilterOutId(b, id)
  {
    if a != [] {
      assert (a + b)[0] == a[0];
      assert (a + b)[1..] == a[1..] + b;
      FilterOutIdAppend(a[1..], b, id);
      var head := if a[0].id == id then [] else [a[0]];
      assert FilterOutId(a + b, id) == head + (FilterOutId(a[1..], id) + FilterOutId(b, id));
      assert head + (FilterOutId(a[1..], id) + FilterOutId(b, id)) == (head + FilterOutId(a[1..], id)) + FilterOutId(b, id);
    } else {
      assert a + b == b;
    }
  }

  /** The remove handler: nothing happens while a single subject is left;
      otherwise exactly the subjects with the id go. */
  function RemoveSubject(subjects: seq<Subject>, id: string): (r: seq<Subject>)
    ensures |subjects| <= 1 ==> r == subjects
    ensures |subjects| > 1 ==> forall s :: s in r <==> s in subjects && s.id != id
    ensures |subjects| > 1 ==> |r| == |subjects| - CountId(subjects, id)
    ensures |subjects| > 1 ==> r == FilterOutId(subjects, id)
  {
    if |subjects| <= 1 then subjects
    else
      FilterOutIdMembers(subjects, id);
      FilterOutId(subjects, id)
  }

  lemma {:induction false} FilterOutAbsentId(subjects: seq<Subject>, id: string)
    requires id !in Ids(subjects)
    ensures FilterOutId(subjects, id) == subjects
  {
    if subjects != [] {
      assert subjects[0].id in Ids(subjects);
      assert Ids(subjects[1..]) <= Ids(subjects) by {
        forall x | x in Ids(subjects[1..]) ensures x in Ids(subjects) {
          var i :| 0 <= i < |subjects[1..]| && subjects[1..][i].id == x;
          assert subjects[i + 1].id == x;
        }
      }
      FilterOutAbsentId(subjects[1..], id);
      assert subjects == [subjects[0]] + subjects[1..];
    }
  }

  /** An id that no subject carries leaves the list as it is. */
  lemma RemoveAbsentId(subjects: seq<Subject>, id: string)
    requires id !in Ids(subjects)
    ensures RemoveSubject(subjects, id) == subjects
  {
    FilterOutAbsentId(subjects, id);
  }

  lemma {:induction false} CountIdAtMostOne(subjects: seq<Subject>, id: string)
    requires UniqueIds(subjects)
    ensures CountId(subjects, id) <= 1
    ensures CountId(subjects, id) == 1 ==> id in Ids(subjects)
  {
    if subjects != [] {
      CountIdAtMostOne(subjects[1..], id);
      if CountId(subjects, id) == 1 && subjects[0].id != id {
        var i :| 0 <= i < |subjects[1..]| && subjects[1..][i].id == id;
        assert subjects[i + 1].id == id;
      }
    }
  }

  /** With distinct ids, removal never empties a non-empty list. */
  lemma RemoveSubjectKeepsOne(subjects: seq<Subject>, id: string)
    requires |subjects| >= 1 && UniqueIds(subjects)
    ensures |RemoveSubject(subjects, id)| >= 1
  {
    CountIdAtMostOne(subjects, id);
  }

  /** Ids are not unique if two subjects share one: then removing that id
      from a two-element list leaves none. */
  lemma DuplicateIdsCanEmptyTheList(s: Subject)
    ensures RemoveSubject([s, s], s.id) == []
  {
  }

  lemma {:induction false} FilterOutIdKeepsIdsUnique(subjects: seq<Subject>, id: string)
    requires UniqueIds(subjects)
    ensures UniqueIds(FilterOutId(subjects, id))
    ensures Ids(FilterOutId(subjects, id)) <= Ids(subjects)
  {
    var r := FilterOutId(subjects, id);
    FilterOutIdMembers(subjects, id);
    forall x | x in Ids(r) ensures x in Ids(subjects) {
      var i :| 0 <= i < |r| && r[i].id == x;
      assert r[i] in subjects;
    }
    if subjects != [] {
      var tail := subjects[1..];
      FilterOutIdKeepsIdsUnique(tail, id);
      if subjects[0].id != id {
        var rt := FilterOutId(tail, id);
        FilterOutIdMembers(tail, id);
        assert r == [subjects[0]] + rt;
        forall j | 0 <= j < |rt| ensures rt[j].id != subjects[0].id {
          assert rt[j] in tail;
          var k :| 0 <= k < |tail| && tail[k] == rt[j];
          assert subjects[k + 1] == rt[j];
        }
      }
    }
  }

  // ----- update ----------------------------------------------------------------

  /** The field a form control writes, with the value it writes. */
  datatype SubjectEdit =
    | SetName(name: string)
    | SetCredits(credits: int)
    | SetStrongAreas(strongAreas: string)
    | SetWeakAreas(weakAreas: string)
    | SetConfidenceLevel(confidenceLevel: int)

  /** `{ ...s, [field]: value }`: the named field takes the value and every
      other field, the id included, is copied. */
  function ApplyEdit(s: Subject, e: SubjectEdit): (t: Subject)
    ensures t.id == s.id
    ensures t.name == (if e.SetName? then e.name else s.name)
    ensures t.credits == (if e.SetCredits? then e.credits else s.credits)
    ensures t.strongAreas == (if e.SetStrongAreas? then e.strongAreas else s.strongAreas)
    ensures t.weakAreas == (if e.SetWeakAreas? then e.weakAreas else s.weakAreas)
    ensures t.confidenceLevel == (if e.SetConfidenceLevel? then e.confidenceLevel else s.confidenceLevel)
  {
    match e
    case SetName(v) => s.(name := v)
    case SetCredits(v) => s.(credits := v)
    case SetStrongAreas(v) => s.(strongAreas := v)
    case SetWeakAreas(v) => s.(weakAreas := v)
    case SetConfidenceLevel(v) => s.(confidenceLevel := v)
  }

  /** `subjects.map((s) => s.id === id ? { ...s, [field]: value } : s)`:
      same length and order, the matching subjects edited, the others
      untouched. */
  function UpdateSubject(subjects: seq<Subject>, id: string, e: SubjectEdit): (r: seq<Subject>)
    ensures |r| == |subjects|
    ensures forall i :: 0 <= i < |subjects| ==>
      r[i] == if subjects[i].id == id then ApplyEdit(subjects[i], e) else subjects[i]
  {
    if subjects == [] then []
    else
      [if subjects[0].id == id then ApplyEdit(subjects[0], e) else subjects[0]]
      + UpdateSubject(subjects[1..], id, e)
  }

  /** Editing never changes an id, so unique ids stay unique. */
  lemma UpdateSubjectKeepsIds(subjects: seq<Subject>, id: string, e: SubjectEdit)
    ensures Ids(UpdateSubject(subjects, id, e)) == Ids(subjects)
    ensures UniqueIds(subjects) ==> UniqueIds(UpdateSubject(subjects, id, e))
  {
    var r := UpdateSubject(subjects, id, e);
    assert forall i :: 0 <= i < |r| ==> r[i].id == subjects[i].id;
    forall x | x in Ids(subjects) ensures x in Ids(r) {
      var i :| 0 <= i < |subjects| && subjects[i].id == x;
      assert r[i].id == x;
    }
  }

  // ----- the credits input and the confidence label ------------------------

  /** The credits input: `Number.parseInt(text) || 1`, so a blank, unreadable
      or zero entry gives one credit and no entry gives zero. */
  function CreditsFromInput(text: string): (credits: int)
    ensures credits != 0
    ensures ParseInt(text).None? || ParseInt(text).value == 0 ==> credits == 1
    ensures ParseInt(text).Some? && ParseInt(text).value != 0 ==> credits == ParseInt(text).value
  {
    ParseIntOrOne(text)
  }

  /** A typed number comes back as itself, zero excepted, which becomes one;
      negative numbers pass through. */
  lemma CreditsFromTypedNumber(n: int, rest: string)
    requires rest == [] || !IsDigit(rest[0])
    ensures CreditsFromInput(IntToString(n) + rest) == if n == 0 then 1 else n
  {
    ParseIntOrOneOfNumber(n, rest);
  }

  lemma BlankCreditsInputIsOne()
    ensures CreditsFromInput("") == 1
  {
  }

  const ConfidenceLabels: seq<string> := ["Very Low", "Low", "Medium", "High", "Very High"]

  /** `confidenceLabels[confidenceLevel - 1]`, `undefined` (None) outside
      the list. */
  function ConfidenceLabel(level: int): (text: Option<string>)
    ensures text.Some? <==> 1 <= level <= |ConfidenceLabels|
    ensures text.Some? ==> text.value == ConfidenceLabels[level - 1]
  {
    if 1 <= level <= |ConfidenceLabels| then Some(ConfidenceLabels[level - 1]) else None
  }

  /** Every slider position 1..5 has a label, and distinct positions have
      distinct labels. */
  lemma SliderLevelsHaveDistinctLabels(a: int, b: int)
    requires 1 <= a <= 5 && 1 <= b <= 5
    ensures ConfidenceLabel(a).Some?
    ensures a != b ==> ConfidenceLabel(a) != ConfidenceLabel(b)
  {
  }
}
