/** The constant tables of constants.ts: storage keys and the symptom catalogue. */
module Constants {
  import opened Types

  const ApiKeyStorageKey: string := "gemini_api_key"
  const HistoryStorageKey: string := "meddoc_prescriber_history"
  const AppModeStorageKey: string := "meddoc_app_mode"

  // The symptom lists of the table, one constant per region.
  const HeadSymptoms: seq<Symptom> := [
    Symptom("headache", "Headache"),
    Symptom("dizziness", "Dizziness"),
    Symptom("sore_throat", "Sore Throat"),
    Symptom("nasal_congestion", "Nasal Congestion"),
    Symptom("earache", "Earache"),
    Symptom("vision_changes", "Vision Changes"),
    Symptom("migraine", "Migraine"),
    Symptom("sinus_pressure", "Sinus Pressure")]
  const NeckSymptoms: seq<Symptom> := [
    Symptom("stiff_neck", "Stiff Neck"),
    Symptom("neck_pain", "Neck Pain"),
    Symptom("swollen_glands", "Swollen Glands")]
  const ChestAndAbdomenSymptoms: seq<Symptom> := [
    Symptom("cough", "Cough"),
    Symptom("chest_pain", "Chest Pain"),
    Symptom("shortness_of_breath", "Shortness of Breath"),
    Symptom("abdominal_pain", "Abdominal Pain"),
    Symptom("nausea_vomiting", "Nausea or Vomiting"),
    Symptom("heartburn", "Heartburn"),
    Symptom("indigestion", "Indigestion"),
    Symptom("palpitations", "Palpitations")]
  const BackSymptoms: seq<Symptom> := [
    Symptom("upper_back_pain", "Upper Back Pain"),
    Symptom("lower_back_pain", "Lower Back Pain"),
    Symptom("muscle_spasms", "Muscle Spasms")]
  const PelvisAndGroinSymptoms: seq<Symptom> := [
    Symptom("pelvic_pain", "Pelvic Pain"),
    Symptom("groin_pain", "Groin Pain")]
  const ArmsAndLegsSymptoms: seq<Symptom> := [
    Symptom("joint_pain", "Joint Pain"),
    Symptom("muscle_pain", "Muscle Pain"),
    Symptom("numbness_tingling", "Numbness or Tingling")]
  const SkinSymptoms: seq<Symptom> := [
    Symptom("rash", "Rash"),
    Symptom("itchiness", "Itchiness"),
    Symptom("acne", "Acne"),
    Symptom("dryness", "Dryness")]
  const UrinarySymptoms: seq<Symptom> := [
    Symptom("painful_urination", "Painful Urination"),
    Symptom("frequent_urination", "Frequent Urination")]
  const GeneralWholeBodySymptoms: seq<Symptom> := [
    Symptom("fever", "Fever"),
    Symptom("fatigue", "Fatigue"),
    Symptom("chills", "Chills")]

  /**
   * `SYMPTOM_DATA[p]`: the symptoms offered for region `p`. The source's table
   * is typed as a record over all regions, so the lookup is total; the match
   * below is checked for exhaustiveness in the same way.
   */
  function SymptomData(p: BodyPart): seq<Symptom> {
    match p
    case Head => HeadSymptoms
    case Neck => NeckSymptoms
    case ChestAndAbdomen => ChestAndAbdomenSymptoms
    case Back => BackSymptoms
    case PelvisAndGroin => PelvisAndGroinSymptoms
    case ArmsAndLegs => ArmsAndLegsSymptoms
    case Skin => SkinSymptoms
    case Urinary => UrinarySymptoms
    case GeneralWholeBody => GeneralWholeBodySymptoms
  }

  /** The order in which the table's keys are enumerated (insertion order), as the body-part grid shows them. */
  const BodyPartOrder: seq<BodyPart> :=
    [Head, Neck, ChestAndAbdomen, Back, PelvisAndGroin, ArmsAndLegs, Skin, Urinary, GeneralWholeBody]

  /** Every symptom of the table, region after region in key order. */
  function AllSymptoms(): seq<Symptom> {
    HeadSymptoms + NeckSymptoms + ChestAndAbdomenSymptoms + BackSymptoms + PelvisAndGroinSymptoms
      + ArmsAndLegsSymptoms + SkinSymptoms + UrinarySymptoms + GeneralWholeBodySymptoms
  }

  /** No two symptoms in `s` share an id. */
  predicate IdsDistinct(s: seq<Symptom>) {
    forall i, j :: 0 <= i < j < |s| ==> s[i].id != s[j].id
  }

  /** No id of `a` is an id of `b`. */
  predicate IdsDisjoint(a: seq<Symptom>, b: seq<Symptom>) {
    forall i, j :: 0 <= i < |a| && 0 <= j < |b| ==> a[i].id != b[j].id
  }

  lemma DistinctConcat(a: seq<Symptom>, b: seq<Symptom>)
    requires IdsDistinct(a) && IdsDistinct(b) && IdsDisjoint(a, b)
    ensures IdsDistinct(a + b)
  {
  }

  /** The key enumeration lists every region exactly once. */
  lemma BodyPartOrderIsComplete()
    ensures forall p: BodyPart :: p in BodyPartOrder
    ensures forall i, j :: 0 <= i < j < |BodyPartOrder| ==> BodyPartOrder[i] != BodyPartOrder[j]
  {
    forall p: BodyPart ensures p in BodyPartOrder {
      match p
      case Head => assert BodyPartOrder[0] == p;
      case Neck => assert BodyPartOrder[1] == p;
      case ChestAndAbdomen => assert BodyPartOrder[2] == p;
      case Back => assert BodyPartOrder[3] == p;
      case PelvisAndGroin => assert BodyPartOrder[4] == p;
      case ArmsAndLegs => assert BodyPartOrder[5] == p;
      case Skin => assert BodyPartOrder[6] == p;
      case Urinary => assert BodyPartOrder[7] == p;
      case GeneralWholeBody => assert BodyPartOrder[8] == p;
    }
  }

  /** No region has an empty symptom list. */
  lemma EveryListIsNonEmpty()
    ensures forall p: BodyPart :: |SymptomData(p)| > 0
  {
  }

  /** The two eight-entry lists, checked on their own. */
  lemma HeadIdsDistinct()
    ensures IdsDistinct(HeadSymptoms)
  {
  }

  lemma ChestAndAbdomenIdsDistinct()
    ensures IdsDistinct(ChestAndAbdomenSymptoms)
  {
  }

  /** Every region's list has distinct ids. */
  lemma IdsDistinctWithinPart(p: BodyPart)
    ensures IdsDistinct(SymptomData(p))
  {
    match p
    case Head => HeadIdsDistinct();
    case Neck => assert IdsDistinct(NeckSymptoms);
    case ChestAndAbdomen => ChestAndAbdomenIdsDistinct();
    case Back => assert IdsDistinct(BackSymptoms);
    case PelvisAndGroin => assert IdsDistinct(PelvisAndGroinSymptoms);
    case ArmsAndLegs => assert IdsDistinct(ArmsAndLegsSymptoms);
    case Skin => assert IdsDistinct(SkinSymptoms);
    case Urinary => assert IdsDistinct(UrinarySymptoms);
    case GeneralWholeBody => assert IdsDistinct(GeneralWholeBodySymptoms);
  }

  /** Ids disjoint from `c` on both sides of a concatenation are disjoint from `c` on the whole. */
  lemma DisjointAppend(a: seq<Symptom>, b: seq<Symptom>, c: seq<Symptom>)
    requires IdsDisjoint(a, c) && IdsDisjoint(b, c)
    ensures IdsDisjoint(a + b, c)
  {
    forall i, j | 0 <= i < |a + b| && 0 <= j < |c| ensures (a + b)[i].id != c[j].id {
      if i >= |a| {
        assert (a + b)[i] == b[i - |a|];
      }
    }
  }

  // Each list's ids are new: none of them occurs in a list before it in key
  // order. The comparisons are grouped so that each lemma stays small.
  lemma NeckIdsAreNew()
    ensures IdsDisjoint(HeadSymptoms, NeckSymptoms)
  {
  }

  lemma ChestAndAbdomenIdsAreNew1()
    ensures IdsDisjoint(HeadSymptoms, ChestAndAbdomenSymptoms)
  {
  }

  lemma ChestAndAbdomenIdsAreNew2()
    ensures IdsDisjoint(NeckSymptoms, ChestAndAbdomenSymptoms)
  {
  }

  lemma BackIdsAreNew1()
    ensures IdsDisjoint(HeadSymptoms, BackSymptoms)
    ensures IdsDisjoint(NeckSymptoms, BackSymptoms)
  {
  }

  lemma BackIdsAreNew2()
    ensures IdsDisjoint(ChestAndAbdomenSymptoms, BackSymptoms)
  {
  }

  lemma PelvisAndGroinIdsAreNew()
    ensures IdsDisjoint(HeadSymptoms, PelvisAndGroinSymptoms)
    ensures IdsDisjoint(NeckSymptoms, PelvisAndGroinSymptoms)
    ensures IdsDisjoint(ChestAndAbdomenSymptoms, PelvisAndGroinSymptoms)
    ensures IdsDisjoint(BackSymptoms, PelvisAndGroinSymptoms)
  {
  }

  lemma ArmsAndLegsIdsAreNew1()
    ensures IdsDisjoint(HeadSymptoms, ArmsAndLegsSymptoms)
    ensures IdsDisjoint(NeckSymptoms, ArmsAndLegsSymptoms)
  {
  }

  lemma ArmsAndLegsIdsAreNew2()
    ensures IdsDisjoint(ChestAndAbdomenSymptoms, ArmsAndLegsSymptoms)
    ensures IdsDisjoint(BackSymptoms, ArmsAndLegsSymptoms)
    ensures IdsDisjoint(PelvisAndGroinSymptoms, ArmsAndLegsSymptoms)
  {
  }

  lemma SkinIdsAreNew1()
    ensures IdsDisjoint(HeadSymptoms, SkinSymptoms)
    ensures IdsDisjoint(NeckSymptoms, SkinSymptoms)
  {
  }

  lemma SkinIdsAreNew2()
    ensures IdsDisjoint(ChestAndAbdomenSymptoms, SkinSymptoms)
    ensures IdsDisjoint(BackSymptoms, SkinSymptoms)
  {
  }

  lemma SkinIdsAreNew3()
    ensures IdsDisjoint(PelvisAndGroinSymptoms, SkinSymptoms)
    ensures IdsDisjoint(ArmsAndLegsSymptoms, SkinSymptoms)
  {
  }

  lemma UrinaryIdsAreNew1()
    ensures IdsDisjoint(HeadSymptoms, UrinarySymptoms)
    ensures IdsDisjoint(NeckSymptoms, UrinarySymptoms)
    ensures IdsDisjoint(ChestAndAbdomenSymptoms, UrinarySymptoms)
    ensures IdsDisjoint(BackSymptoms, UrinarySymptoms)
    ensures IdsDisjoint(PelvisAndGroinSymptoms, UrinarySymptoms)
  {
  }

  lemma UrinaryIdsAreNew2()
    ensures IdsDisjoint(ArmsAndLegsSymptoms, UrinarySymptoms)
    ensures IdsDisjoint(SkinSymptoms, UrinarySymptoms)
  {
  }

  lemma GeneralWholeBodyIdsAreNew1()
    ensures IdsDisjoint(HeadSymptoms, GeneralWholeBodySymptoms)
    ensures IdsDisjoint(NeckSymptoms, GeneralWholeBodySymptoms)
  {
  }

  lemma GeneralWholeBodyIdsAreNew2()
    ensures IdsDisjoint(ChestAndAbdomenSymptoms, GeneralWholeBodySymptoms)
    ensures IdsDisjoint(BackSymptoms, GeneralWholeBodySymptoms)
    ensures IdsDisjoint(PelvisAndGroinSymptoms, GeneralWholeBodySymptoms)
    ensures IdsDisjoint(ArmsAndLegsSymptoms, GeneralWholeBodySymptoms)
  {
  }

  lemma GeneralWholeBodyIdsAreNew3()
    ensures IdsDisjoint(SkinSymptoms, GeneralWholeBodySymptoms)
    ensures IdsDisjoint(UrinarySymptoms, GeneralWholeBodySymptoms)
  {
  }

  // The catalogue's ids are distinct on the first k lists, for k = 2 .. 9;
  // each step adds one list whose ids are new.

  lemma PrefixDistinct2()
    ensures IdsDistinct(HeadSymptoms + NeckSymptoms)
  {
    IdsDistinctWithinPart(Head);
    IdsDistinctWithinPart(Neck);
    NeckIdsAreNew();
    DistinctConcat(HeadSymptoms, NeckSymptoms);
  }

  lemma PrefixDistinct3()
    ensures IdsDistinct(HeadSymptoms + NeckSymptoms + ChestAndAbdomenSymptoms)
  {
    PrefixDistinct2();
    IdsDistinctWithinPart(ChestAndAbdomen);
    ChestAndAbdomenIdsAreNew1();
    ChestAndAbdomenIdsAreNew2();
    DisjointAppend(HeadSymptoms, NeckSymptoms, ChestAndAbdomenSymptoms);
    DistinctConcat(HeadSymptoms + NeckSymptoms, ChestAndAbdomenSymptoms);
  }

  lemma PrefixDistinct4()
    ensures IdsDistinct(HeadSymptoms + NeckSymptoms + ChestAndAbdomenSymptoms + BackSymptoms)
  {
    PrefixDistinct3();
    IdsDistinctWithinPart(Back);
    BackIdsAreNew1();
    BackIdsAreNew2();
    DisjointAppend(HeadSymptoms, NeckSymptoms, BackSymptoms);
    DisjointAppend(HeadSymptoms + NeckSymptoms, ChestAndAbdomenSymptoms, BackSymptoms);
    DistinctConcat(HeadSymptoms + NeckSymptoms + ChestAndAbdomenSymptoms, BackSymptoms);
  }

  lemma PrefixDistinct5()
    ensures IdsDistinct(HeadSymptoms + NeckSymptoms + ChestAndAbdomenSymptoms + BackSymptoms + PelvisAndGroinSymptoms)
  {
    PrefixDistinct4();
    IdsDistinctWithinPart(PelvisAndGroin);
    PelvisAndGroinIdsAreNew();
    DisjointAppend(HeadSymptoms, NeckSymptoms, PelvisAndGroinSymptoms);
    DisjointAppend(HeadSymptoms + NeckSymptoms, ChestAndAbdomenSymptoms, PelvisAndGroinSymptoms);
    DisjointAppend(HeadSymptoms + NeckSymptoms + ChestAndAbdomenSymptoms, BackSymptoms, PelvisAndGroinSymptoms);
    DistinctConcat(HeadSymptoms + NeckSymptoms + ChestAndAbdomenSymptoms + BackSymptoms, PelvisAndGroinSymptoms);
  }

  lemma PrefixDistinct6()
    ensures IdsDistinct(HeadSymptoms + NeckSymptoms + ChestAndAbdomenSymptoms + BackSymptoms + PelvisAndGroinSymptoms + ArmsAndLegsSymptoms)
  {
    PrefixDistinct5();
    IdsDistinctWithinPart(ArmsAndLegs);
    ArmsAndLegsIdsAreNew1();
    ArmsAndLegsIdsAreNew2();
    DisjointAppend(HeadSymptoms, NeckSymptoms, ArmsAndLegsSymptoms);
    DisjointAppend(HeadSymptoms + NeckSymptoms, ChestAndAbdomenSymptoms, ArmsAndLegsSymptoms);
    DisjointAppend(HeadSymptoms + NeckSymptoms + ChestAndAbdomenSymptoms, BackSymptoms, ArmsAndLegsSymptoms);
    DisjointAppend(HeadSymptoms + NeckSymptoms + ChestAndAbdomenSymptoms + BackSymptoms, PelvisAndGroinSymptoms, ArmsAndLegsSymptoms);
    DistinctConcat(HeadSymptoms + NeckSymptoms + ChestAndAbdomenSymptoms + BackSymptoms + PelvisAndGroinSymptoms, ArmsAndLegsSymptoms);
  }

  lemma PrefixDistinct7()
    ensures IdsDistinct(HeadSymptoms + NeckSymptoms + ChestAndAbdomenSymptoms + BackSymptoms + PelvisAndGroinSymptoms + ArmsAndLegsSymptoms + SkinSymptoms)
  {
    PrefixDistinct6();
    IdsDistinctWithinPart(Skin);
    SkinIdsAreNew1();
    SkinIdsAreNew2();
    SkinIdsAreNew3();
    DisjointAppend(HeadSymptoms, NeckSymptoms, SkinSymptoms);
    DisjointAppend(HeadSymptoms + NeckSymptoms, ChestAndAbdomenSymptoms, SkinSymptoms);
    DisjointAppend(HeadSymptoms + NeckSymptoms + ChestAndAbdomenSymptoms, BackSymptoms, SkinSymptoms);
    DisjointAppend(HeadSymptoms + NeckSymptoms + ChestAndAbdomenSymptoms + BackSymptoms, PelvisAndGroinSymptoms, SkinSymptoms);
    DisjointAppend(HeadSymptoms + NeckSymptoms + ChestAndAbdomenSymptoms + BackSymptoms + PelvisAndGroinSymptoms, ArmsAndLegsSymptoms, SkinSymptoms);
    DistinctConcat(HeadSymptoms + NeckSymptoms + ChestAndAbdomenSymptoms + BackSymptoms + PelvisAndGroinSymptoms + ArmsAndLegsSymptoms, SkinSymptoms);
  }

  lemma PrefixDistinct8()
    ensures IdsDistinct(HeadSymptoms + NeckSymptoms + ChestAndAbdomenSymptoms + BackSymptoms + PelvisAndGroinSymptoms + ArmsAndLegsSymptoms + SkinSymptoms + UrinarySymptoms)
  {
    PrefixDistinct7();
    IdsDistinctWithinPart(Urinary);
    UrinaryIdsAreNew1();
    UrinaryIdsAreNew2();
    DisjointAppend(HeadSymptoms, NeckSymptoms, UrinarySymptoms);
    DisjointAppend(HeadSymptoms + NeckSymptoms, ChestAndAbdomenSymptoms, UrinarySymptoms);
    DisjointAppend(HeadSymptoms + NeckSymptoms + ChestAndAbdomenSymptoms, BackSymptoms, UrinarySymptoms);
    DisjointAppend(HeadSymptoms + NeckSymptoms + ChestAndAbdomenSymptoms + BackSymptoms, PelvisAndGroinSymptoms, UrinarySymptoms);
    DisjointAppend(HeadSymptoms + NeckSymptoms + ChestAndAbdomenSymptoms + BackSymptoms + PelvisAndGroinSymptoms, ArmsAndLegsSymptoms, UrinarySymptoms);
    DisjointAppend(HeadSymptoms + NeckSymptoms + ChestAndAbdomenSymptoms + BackSymptoms + PelvisAndGroinSymptoms + ArmsAndLegsSymptoms, SkinSymptoms, UrinarySymptoms);
    DistinctConcat(HeadSymptoms + NeckSymptoms + ChestAndAbdomenSymptoms + BackSymptoms + PelvisAndGroinSymptoms + ArmsAndLegsSymptoms + SkinSymptoms, UrinarySymptoms);
  }

  /** The table holds 36 symptoms, and no id occurs twice anywhere in it. */
  lemma CatalogueIdsDistinct()
    ensures |AllSymptoms()| == 36
    ensures IdsDistinct(AllSymptoms())
  {
    PrefixDistinct8();
    IdsDistinctWithinPart(GeneralWholeBody);
    GeneralWholeBodyIdsAreNew1();
    GeneralWholeBodyIdsAreNew2();
    GeneralWholeBodyIdsAreNew3();
    DisjointAppend(HeadSymptoms, NeckSymptoms, GeneralWholeBodySymptoms);
    DisjointAppend(HeadSymptoms + NeckSymptoms, ChestAndAbdomenSymptoms, GeneralWholeBodySymptoms);
    DisjointAppend(HeadSymptoms + NeckSymptoms + ChestAndAbdomenSymptoms, BackSymptoms, GeneralWholeBodySymptoms);
    DisjointAppend(HeadSymptoms + NeckSymptoms + ChestAndAbdomenSymptoms + BackSymptoms, PelvisAndGroinSymptoms, GeneralWholeBodySymptoms);
    DisjointAppend(HeadSymptoms + NeckSymptoms + ChestAndAbdomenSymptoms + BackSymptoms + PelvisAndGroinSymptoms, ArmsAndLegsSymptoms, GeneralWholeBodySymptoms);
    DisjointAppend(HeadSymptoms + NeckSymptoms + ChestAndAbdomenSymptoms + BackSymptoms + PelvisAndGroinSymptoms + ArmsAndLegsSymptoms, SkinSymptoms, GeneralWholeBodySymptoms);
    DisjointAppend(HeadSymptoms + NeckSymptoms + ChestAndAbdomenSymptoms + BackSymptoms + PelvisAndGroinSymptoms + ArmsAndLegsSymptoms + SkinSymptoms, UrinarySymptoms, GeneralWholeBodySymptoms);
    DistinctConcat(HeadSymptoms + NeckSymptoms + ChestAndAbdomenSymptoms + BackSymptoms + PelvisAndGroinSymptoms + ArmsAndLegsSymptoms + SkinSymptoms + UrinarySymptoms, GeneralWholeBodySymptoms);
  }

  /** The longest list has eight entries, and the Head list reaches that. */
  lemma LongestListHasEight()
    ensures forall p: BodyPart :: |SymptomData(p)| <= 8
    ensures |SymptomData(Head)| == 8
  {
  }

  /** The three storage keys are pairwise distinct. */
  lemma StorageKeysDistinct()
    ensures ApiKeyStorageKey != HistoryStorageKey
    ensures ApiKeyStorageKey != AppModeStorageKey
    ensures HistoryStorageKey != AppModeStorageKey
  {
  }
}
