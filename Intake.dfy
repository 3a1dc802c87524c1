/**
 * The intake form of App.tsx: the patient details, the chosen region, and the
 * symptom selection, which behaves as a set keyed by symptom id.
 */
module Intake {
  import opened Wrappers
  import opened JsString
  import opened Types
  import opened Constants

  /** `s.some(x => x.id === id)`. */
  function HasId(s: seq<Symptom>, id: string): (r: bool)
    ensures r <==> exists i :: 0 <= i < |s| && s[i].id == id
  {
    if s == [] then false
    else if s[0].id == id then true
    else
      var r := HasId(s[1..], id);
      assert forall i :: 1 <= i < |s| ==> s[i] == s[1..][i - 1];
      r
  }

  /**
   * `s.filter(x => x.id !== id)`. How often each entry is kept is stated by
   * `RemoveIdCounts`, the order by `RemoveIdConcat`.
   */
  function RemoveId(s: seq<Symptom>, id: string): (r: seq<Symptom>)
    ensures |r| <= |s|
    ensures forall x :: x in r <==> x in s && x.id != id
  {
    if s == [] then []
    else if s[0].id == id then RemoveId(s[1..], id)
    else [s[0]] + RemoveId(s[1..], id)
  }

  /** Filtering keeps every entry with another id as often as it occurs, and drops every entry with that id. */
  lemma {:induction false} RemoveIdCounts(s: seq<Symptom>, id: string, x: Symptom)
    ensures multiset(RemoveId(s, id))[x] == if x.id == id then 0 else multiset(s)[x]
  {
    if s != [] {
      RemoveIdCounts(s[1..], id, x);
      assert s == [s[0]] + s[1..];
    }
  }

  /**
   * The updater of `handleSymptomToggle`: a symptom whose id is selected is
   * dropped (every entry with that id), any other is appended. The id's
   * presence flips and no other entry is gained or lost.
   */
  function Toggle(prev: seq<Symptom>, symptom: Symptom): (r: seq<Symptom>)
    ensures HasId(r, symptom.id) <==> !HasId(prev, symptom.id)
    ensures forall x: Symptom :: x.id != symptom.id ==> (x in r <==> x in prev)
    ensures forall x :: x in r ==> x in prev || x == symptom
  {
    if HasId(prev, symptom.id) then RemoveId(prev, symptom.id)
    else
      assert (prev + [symptom])[|prev|] == symptom;
      prev + [symptom]
  }

  /** Filtering out an id nobody has keeps the list as it is. */
  lemma {:induction false} RemoveIdAbsent(s: seq<Symptom>, id: string)
    requires !HasId(s, id)
    ensures RemoveId(s, id) == s
  {
    if s != [] {
      assert s[0].id != id;
      assert !HasId(s[1..], id) by {
        forall i | 0 <= i < |s[1..]| ensures s[1..][i].id != id {
          assert s[1..][i] == s[i + 1];
        }
      }
      RemoveIdAbsent(s[1..], id);
      assert s == [s[0]] + s[1..];
    }
  }

  /** Filtering distributes over concatenation. */
  lemma {:induction false} RemoveIdConcat(s: seq<Symptom>, t: seq<Symptom>, id: string)
    ensures RemoveId(s + t, id) == RemoveId(s, id) + RemoveId(t, id)
  {
    if s == [] {
      assert s + t == t;
    } else {
      assert (s + t)[0] == s[0];
      assert (s + t)[1..] == s[1..] + t;
      RemoveIdConcat(s[1..], t, id);
    }
  }

  /**
   * With distinct ids, dropping the id of entry k removes exactly that entry
   * and keeps the others in their order.
   */
  lemma {:induction false} RemoveIdAt(s: seq<Symptom>, k: nat)
    requires IdsDistinct(s) && k < |s|
    ensures RemoveId(s, s[k].id) == s[..k] + s[k + 1..]
  {
    var id := s[k].id;
    assert s == s[..k] + [s[k]] + s[k + 1..];
    assert !HasId(s[..k], id) by {
      forall i | 0 <= i < k ensures s[..k][i].id != id {
        assert s[..k][i] == s[i];
      }
    }
    assert !HasId(s[k + 1..], id) by {
      var tail := s[k + 1..];
      forall i | 0 <= i < |tail| ensures tail[i].id != id {
        assert tail[i] == s[k + 1 + i];
      }
    }
    RemoveIdConcat(s[..k] + [s[k]], s[k + 1..], id);
    RemoveIdConcat(s[..k], [s[k]], id);
    RemoveIdAbsent(s[..k], id);
    RemoveIdAbsent(s[k + 1..], id);
    assert RemoveId([s[k]], id) == [];
  }

  /** Filtering keeps ids distinct. */
  lemma {:induction false} RemoveIdKeepsDistinct(s: seq<Symptom>, id: string)
    requires IdsDistinct(s)
    ensures IdsDistinct(RemoveId(s, id))
  {
    if s != [] {
      assert IdsDistinct(s[1..]) by {
        forall i, j | 0 <= i < j < |s[1..]| ensures s[1..][i].id != s[1..][j].id {
          assert s[1..][i] == s[i + 1] && s[1..][j] == s[j + 1];
        }
      }
      RemoveIdKeepsDistinct(s[1..], id);
      if s[0].id != id {
        var rest := RemoveId(s[1..], id);
        forall j | 0 <= j < |rest| ensures rest[j].id != s[0].id {
          assert rest[j] in s[1..];
          var m :| 0 <= m < |s[1..]| && s[1..][m] == rest[j];
          assert s[1..][m] == s[m + 1];
        }
        assert ([s[0]] + rest)[0] == s[0];
        forall i, j | 0 <= i < j < |[s[0]] + rest|
          ensures ([s[0]] + rest)[i].id != ([s[0]] + rest)[j].id
        {
          assert ([s[0]] + rest)[j] == rest[j - 1];
          if i > 0 {
            assert ([s[0]] + rest)[i] == rest[i - 1];
          }
        }
      }
    }
  }

  /** Toggling a symptom whose id is not selected appends it at the end. */
  lemma ToggleAppendsWhenAbsent(prev: seq<Symptom>, symptom: Symptom)
    requires !HasId(prev, symptom.id)
    ensures Toggle(prev, symptom) == prev + [symptom]
  {
  }

  /**
   * Toggling a selected symptom, in a selection with distinct ids, removes
   * that one entry and keeps the others in order.
   */
  lemma ToggleRemovesInPlace(prev: seq<Symptom>, symptom: Symptom, k: nat)
    requires IdsDistinct(prev) && k < |prev| && prev[k].id == symptom.id
    ensures Toggle(prev, symptom) == prev[..k] + prev[k + 1..]
  {
    RemoveIdAt(prev, k);
  }

  /** Toggling the same symptom twice restores a selection that lacked its id. */
  lemma ToggleTwiceRestores(prev: seq<Symptom>, symptom: Symptom)
    requires !HasId(prev, symptom.id)
    ensures Toggle(Toggle(prev, symptom), symptom) == prev
  {
    assert Toggle(prev, symptom) == prev + [symptom];
    RemoveIdConcat(prev, [symptom], symptom.id);
    RemoveIdAbsent(prev, symptom.id);
    assert RemoveId([symptom], symptom.id) == [];
  }

  /** Toggling keeps the selected ids distinct. */
  lemma TogglePreservesDistinct(prev: seq<Symptom>, symptom: Symptom)
    requires IdsDistinct(prev)
    ensures IdsDistinct(Toggle(prev, symptom))
  {
    if HasId(prev, symptom.id) {
      RemoveIdKeepsDistinct(prev, symptom.id);
    } else {
      var r := prev + [symptom];
      forall i, j | 0 <= i < j < |r| ensures r[i].id != r[j].id {
        if j == |prev| {
          assert r[i] == prev[i];
        } else {
          assert r[i] == prev[i] && r[j] == prev[j];
        }
      }
    }
  }

  /** `isFormValid`: a non-blank name, an age, a chosen region and at least one symptom. */
  predicate FormValid(info: PatientInfo, part: Option<BodyPart>, selected: seq<Symptom>) {
    Trim(info.name) != "" && info.age != "" && part.Some? && |selected| > 0
  }

  /** The form's own state. */
  class IntakeForm {
    var patientInfo: PatientInfo
    var primaryBodyPart: Option<BodyPart>
    var selectedSymptoms: seq<Symptom>

    /** Every selected symptom is offered for the chosen region (none before one is chosen). */
    ghost predicate SelectionFromPart()
      reads this
    {
      match primaryBodyPart
      case None => selectedSymptoms == []
      case Some(part) => forall x :: x in selectedSymptoms ==> x in SymptomData(part)
    }

    /** No two selected entries share an id. */
    ghost predicate SelectionDistinct()
      reads this
    {
      IdsDistinct(selectedSymptoms)
    }

    ghost predicate Valid()
      reads this
    {
      SelectionFromPart() && SelectionDistinct()
    }

    /** The initial state: blank details, gender Male, no region, nothing selected. */
    constructor()
      ensures patientInfo == PatientInfo("", "", Male)
      ensures primaryBodyPart == None && selectedSymptoms == []
      ensures Valid()
    {
      patientInfo := PatientInfo("", "", Male);
      primaryBodyPart := None;
      selectedSymptoms := [];
    }

    /** Editing the name, age or gender fields. */
    method SetPatientInfo(info: PatientInfo)
      modifies this
      ensures patientInfo == info
      ensures primaryBodyPart == old(primaryBodyPart) && selectedSymptoms == old(selectedSymptoms)
    {
      patientInfo := info;
    }

    /**
     * `handleSymptomToggle`: the selection becomes its toggle. Ids stay
     * distinct, and when the symptom is one offered for the chosen region,
     * so does every selected entry.
     */
    method HandleSymptomToggle(symptom: Symptom)
      requires SelectionDistinct()
      modifies this
      ensures selectedSymptoms == Toggle(old(selectedSymptoms), symptom)
      ensures patientInfo == old(patientInfo) && primaryBodyPart == old(primaryBodyPart)
      ensures SelectionDistinct()
      ensures old(SelectionFromPart()) && primaryBodyPart.Some? && symptom in SymptomData(primaryBodyPart.value)
        ==> SelectionFromPart()
    {
      TogglePreservesDistinct(selectedSymptoms, symptom);
      selectedSymptoms := Toggle(selectedSymptoms, symptom);
    }

    /** `handleBodyPartChange`: choosing a region empties the selection. */
    method HandleBodyPartChange(part: BodyPart)
      modifies this
      ensures primaryBodyPart == Some(part) && selectedSymptoms == []
      ensures patientInfo == old(patientInfo)
      ensures Valid()
    {
      primaryBodyPart := Some(part);
      selectedSymptoms := [];
    }

    /**
     * `handleSubmit`: the intake is handed on exactly when the form is valid,
     * and it is the form's current content.
     */
    method HandleSubmit() returns (submitted: Option<IntakeData>)
      ensures submitted.Some? <==>
        Trim(patientInfo.name) != "" && patientInfo.age != "" && primaryBodyPart.Some? && |selectedSymptoms| > 0
      ensures submitted.Some? ==>
        submitted.value == IntakeData(patientInfo, primaryBodyPart.value, selectedSymptoms)
    {
      if FormValid(patientInfo, primaryBodyPart, selectedSymptoms) {
        submitted := Some(IntakeData(patientInfo, primaryBodyPart.value, selectedSymptoms));
      } else {
        submitted := None;
      }
    }
  }

  /**
   * A submitted intake from a valid form lists only symptoms of its region,
   * with distinct ids.
   */
  lemma SubmittedIntakeIsConsistent(form: IntakeForm, data: IntakeData)
    requires form.Valid()
    requires form.primaryBodyPart.Some? && data == IntakeData(form.patientInfo, form.primaryBodyPart.value, form.selectedSymptoms)
    ensures forall x :: x in data.symptoms ==> x in SymptomData(data.primaryBodyPart)
    ensures IdsDistinct(data.symptoms)
  {
  }
}
