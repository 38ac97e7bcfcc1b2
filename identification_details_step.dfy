/** Step 1 of the account-opening wizard: the identity document and civil details. */
module IdentificationDetailsStep {
  import opened Js
  import opened Forms

  /** The ten fields the step requires, every one merely to be present. */
  const Required: set<Field> :=
    {IdType, IdNumber, IdIssueDate, IdExpiryDate, IdPlaceOfIssue, Nuit, Dob, Pob, Nationality, MaritalStatus}

  /** The values of the marital-status select. */
  const MaritalStatusOptions: seq<string> := ["Single", "Common-law Marriage", "Married", "Divorced", "Widowed"]

  /** validateStep: ten guarded assignments into a fresh map, in the order of the source. */
  method ValidateStep(formData: FieldMap) returns (newErrors: Errors, valid: bool)
    ensures newErrors == SectionErrors(Identification, formData)
    ensures valid <==> newErrors == map[]
  {
    newErrors := map[];
    newErrors := SetIf(newErrors, Missing(formData, IdType), IdType, IdTypeRequired);
    newErrors := SetIf(newErrors, Missing(formData, IdNumber), IdNumber, IdNumberRequired);
    newErrors := SetIf(newErrors, Missing(formData, IdIssueDate), IdIssueDate, IssueDateRequired);
    newErrors := SetIf(newErrors, Missing(formData, IdExpiryDate), IdExpiryDate, ExpiryDateRequired);
    newErrors := SetIf(newErrors, Missing(formData, IdPlaceOfIssue), IdPlaceOfIssue, PlaceOfIssueRequired);
    newErrors := SetIf(newErrors, Missing(formData, Nuit), Nuit, NuitRequired);
    newErrors := SetIf(newErrors, Missing(formData, Dob), Dob, DobRequired);
    newErrors := SetIf(newErrors, Missing(formData, Pob), Pob, PobRequired);
    newErrors := SetIf(newErrors, Missing(formData, Nationality), Nationality, NationalityRequired);
    newErrors := SetIf(newErrors, Missing(formData, MaritalStatus), MaritalStatus, MaritalStatusRequired);
    Fold(formData);
    valid := |newErrors| == 0;
  }

  /** The ten assignments of ValidateStep, applied to the empty map, compute SectionErrors. */
  lemma Fold(data: FieldMap)
    ensures Checks(data, map[]) == SectionErrors(Identification, data)
  {
    AfterNone(Identification, data);
    ChecksAfter(Identification, data, 0, map[]);
    AfterAll(Identification, data, Checks(data, map[]));
  }

  /** The checks of this step, in the order of the source, applied to x. */
  function Checks(data: FieldMap, x: Errors): Errors {
    SetIf(UpToNationality(data, UpToNuit(data, UpToIssueDate(data, x))),
      Missing(data, MaritalStatus), MaritalStatus, MaritalStatusRequired)
  }

  function UpToIssueDate(data: FieldMap, x: Errors): Errors {
    SetIf(SetIf(SetIf(x,
      Missing(data, IdType), IdType, IdTypeRequired),
      Missing(data, IdNumber), IdNumber, IdNumberRequired),
      Missing(data, IdIssueDate), IdIssueDate, IssueDateRequired)
  }

  function UpToNuit(data: FieldMap, x: Errors): Errors {
    SetIf(SetIf(SetIf(x,
      Missing(data, IdExpiryDate), IdExpiryDate, ExpiryDateRequired),
      Missing(data, IdPlaceOfIssue), IdPlaceOfIssue, PlaceOfIssueRequired),
      Missing(data, Nuit), Nuit, NuitRequired)
  }

  function UpToNationality(data: FieldMap, x: Errors): Errors {
    SetIf(SetIf(SetIf(x,
      Missing(data, Dob), Dob, DobRequired),
      Missing(data, Pob), Pob, PobRequired),
      Missing(data, Nationality), Nationality, NationalityRequired)
  }

  /** The checks read nothing but the fields of this step. */
  lemma ChecksAgree(d1: FieldMap, d2: FieldMap, x: Errors)
    requires forall k | k in Required :: Lookup(d1, k) == Lookup(d2, k)
    ensures Checks(d1, x) == Checks(d2, x)
  {
    assert IdType in Required && IdNumber in Required && IdIssueDate in Required;
    UpToIssueDateAgree(d1, d2, x);
    var y := UpToIssueDate(d1, x);
    assert IdExpiryDate in Required && IdPlaceOfIssue in Required && Nuit in Required;
    UpToNuitAgree(d1, d2, y);
    var z := UpToNuit(d1, y);
    assert Dob in Required && Pob in Required && Nationality in Required;
    UpToNationalityAgree(d1, d2, z);
    assert MaritalStatus in Required;
  }

  lemma UpToIssueDateAgree(d1: FieldMap, d2: FieldMap, x: Errors)
    requires Lookup(d1, IdType) == Lookup(d2, IdType) && Lookup(d1, IdNumber) == Lookup(d2, IdNumber)
    requires Lookup(d1, IdIssueDate) == Lookup(d2, IdIssueDate)
    ensures UpToIssueDate(d1, x) == UpToIssueDate(d2, x)
  {
  }

  lemma UpToNuitAgree(d1: FieldMap, d2: FieldMap, x: Errors)
    requires Lookup(d1, IdExpiryDate) == Lookup(d2, IdExpiryDate) && Lookup(d1, IdPlaceOfIssue) == Lookup(d2, IdPlaceOfIssue)
    requires Lookup(d1, Nuit) == Lookup(d2, Nuit)
    ensures UpToNuit(d1, x) == UpToNuit(d2, x)
  {
  }

  lemma UpToNationalityAgree(d1: FieldMap, d2: FieldMap, x: Errors)
    requires Lookup(d1, Dob) == Lookup(d2, Dob) && Lookup(d1, Pob) == Lookup(d2, Pob)
    requires Lookup(d1, Nationality) == Lookup(d2, Nationality)
    ensures UpToNationality(d1, x) == UpToNationality(d2, x)
  {
  }

  /** The checks of this step, wherever they sit in a validator (at n = 0 in this step,
      at n = 9 in the one-page form). */
  lemma ChecksAfter(s: Section, data: FieldMap, n: nat, x: Errors)
    requires Position(s, IdType) == n && Position(s, IdNumber) == n + 1 && Position(s, IdIssueDate) == n + 2
    requires Position(s, IdExpiryDate) == n + 3 && Position(s, IdPlaceOfIssue) == n + 4 && Position(s, Nuit) == n + 5
    requires Position(s, Dob) == n + 6 && Position(s, Pob) == n + 7 && Position(s, Nationality) == n + 8
    requires Position(s, MaritalStatus) == n + 9
    requires n + 10 <= Count(s) && After(s, data, n, x)
    ensures After(s, data, n + 10, Checks(data, x))
  {
    var y := UpToIssueDate(data, x);
    UpToIssueDateAfter(s, data, n, x);
    UpToNuitAfter(s, data, n + 3, y);
    LastFourAfter(s, data, n + 6, UpToNuit(data, y));
  }

  lemma LastFourAfter(s: Section, data: FieldMap, n: nat, x: Errors)
    requires Position(s, Dob) == n && Position(s, Pob) == n + 1 && Position(s, Nationality) == n + 2
    requires Position(s, MaritalStatus) == n + 3
    requires n + 4 <= Count(s) && After(s, data, n, x)
    ensures After(s, data, n + 4, SetIf(UpToNationality(data, x), Missing(data, MaritalStatus), MaritalStatus, MaritalStatusRequired))
  {
    UpToNationalityAfter(s, data, n, x);
    CheckRequired(s, data, n + 3, MaritalStatus, MaritalStatusRequired, UpToNationality(data, x));
  }

  lemma UpToIssueDateAfter(s: Section, data: FieldMap, n: nat, x: Errors)
    requires Position(s, IdType) == n && Position(s, IdNumber) == n + 1 && Position(s, IdIssueDate) == n + 2
    requires n + 3 <= Count(s) && After(s, data, n, x)
    ensures After(s, data, n + 3, UpToIssueDate(data, x))
  {
    CheckRequired(s, data, n, IdType, IdTypeRequired, x);
    var x1 := SetIf(x, Missing(data, IdType), IdType, IdTypeRequired);
    CheckRequired(s, data, n + 1, IdNumber, IdNumberRequired, x1);
    CheckRequired(s, data, n + 2, IdIssueDate, IssueDateRequired, SetIf(x1, Missing(data, IdNumber), IdNumber, IdNumberRequired));
  }

  lemma UpToNuitAfter(s: Section, data: FieldMap, n: nat, x: Errors)
    requires Position(s, IdExpiryDate) == n && Position(s, IdPlaceOfIssue) == n + 1 && Position(s, Nuit) == n + 2
    requires n + 3 <= Count(s) && After(s, data, n, x)
    ensures After(s, data, n + 3, UpToNuit(data, x))
  {
    CheckRequired(s, data, n, IdExpiryDate, ExpiryDateRequired, x);
    var x1 := SetIf(x, Missing(data, IdExpiryDate), IdExpiryDate, ExpiryDateRequired);
    CheckRequired(s, data, n + 1, IdPlaceOfIssue, PlaceOfIssueRequired, x1);
    CheckRequired(s, data, n + 2, Nuit, NuitRequired, SetIf(x1, Missing(data, IdPlaceOfIssue), IdPlaceOfIssue, PlaceOfIssueRequired));
  }

  lemma UpToNationalityAfter(s: Section, data: FieldMap, n: nat, x: Errors)
    requires Position(s, Dob) == n && Position(s, Pob) == n + 1 && Position(s, Nationality) == n + 2
    requires n + 3 <= Count(s) && After(s, data, n, x)
    ensures After(s, data, n + 3, UpToNationality(data, x))
  {
    CheckRequired(s, data, n, Dob, DobRequired, x);
    var x1 := SetIf(x, Missing(data, Dob), Dob, DobRequired);
    CheckRequired(s, data, n + 1, Pob, PobRequired, x1);
    CheckRequired(s, data, n + 2, Nationality, NationalityRequired, SetIf(x1, Missing(data, Pob), Pob, PobRequired));
  }

  /** The step checks exactly the ten required fields, each for presence. */
  lemma CheckedIsRequired(data: FieldMap, k: Field)
    ensures Checked(Identification, k) <==> k in Required
    ensures k in Required ==> (Fault(data, k) <==> Missing(data, k)) && Message(k) == RequiredMessage(k)
  {
    CheckedFields(k);
  }

  lemma CheckedFields(k: Field)
    ensures Checked(Identification, k) <==> k in Required
  {
  }

  /** The step reports exactly the missing fields, each with its own message. */
  lemma ReportsMissing(data: FieldMap)
    ensures SectionErrors(Identification, data).Keys == set k | k in Required && Missing(data, k)
    ensures forall k | k in SectionErrors(Identification, data) :: SectionErrors(Identification, data)[k] == RequiredMessage(k)
  {
    var e := SectionErrors(Identification, data);
    forall k ensures k in e <==> k in Required && Missing(data, k) {
      CheckedIsRequired(data, k);
    }
    forall k | k in e ensures e[k] == RequiredMessage(k) {
      CheckedIsRequired(data, k);
    }
  }

  /** The step lets the applicant on exactly when all ten fields are filled in. */
  lemma PassesIff(data: FieldMap)
    ensures SectionErrors(Identification, data) == map[] <==> forall k | k in Required :: !Missing(data, k)
  {
    var e := SectionErrors(Identification, data);
    ReportsMissing(data);
    if e == map[] {
      forall k | k in Required ensures !Missing(data, k) {
        assert k !in e.Keys;
      }
    } else {
      var k :| k in e;
      assert k in e.Keys;
    }
  }

  /** What the disabled nationality input shows: the stored value, or "Mozambican"
      when there is none. */
  function NationalityShown(data: FieldMap): string {
    if Truthy(Lookup(data, Nationality)) then ToJsString(Lookup(data, Nationality)) else "Mozambican"
  }

  /** Choosing any of the five marital-status options satisfies that check. */
  lemma MaritalStatusOptionAccepted(data: FieldMap, i: nat)
    requires i < |MaritalStatusOptions|
    ensures MaritalStatus !in SectionErrors(Identification, data[MaritalStatus := Text(MaritalStatusOptions[i])])
  {
    var d := data[MaritalStatus := Text(MaritalStatusOptions[i])];
    assert MaritalStatusOptions[i] != "";
    CheckedIsRequired(d, MaritalStatus);
  }

  /** While no nationality is stored, the screen shows "Mozambican" in the field and
      the step still refuses it as missing. */
  lemma NationalityShownButRequired(data: FieldMap)
    requires Missing(data, Nationality)
    ensures NationalityShown(data) == "Mozambican"
    ensures Get(SectionErrors(Identification, data), Nationality) == Some(NationalityRequired)
    ensures SectionErrors(Identification, data) != map[]
  {
    assert Nationality in SectionErrors(Identification, data);
  }

  /** The step reports the faults of its ten fields and of no other. */
  lemma ReportsOn(data: FieldMap)
    ensures SectionErrors(Identification, data) == ErrorsOn(data, Required)
  {
    forall k ensures Checked(Identification, k) <==> k in Required {
      CheckedFields(k);
    }
    SectionIsErrorsOn(Identification, data, Required);
  }
}
