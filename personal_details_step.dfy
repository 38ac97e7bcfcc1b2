/** Step 0 of the account-opening wizard: branch, name, contact details and address. */
module PersonalDetailsStep {
  import opened Js
  import opened Patterns
  import opened Forms

  /** The fields that only have to be present. */
  const Required: set<Field> := {Branch, FullName, Address, Town, District, Province, Gender}

  /** validateStep: one guarded assignment per field, in the order of the source, into a
      fresh map; the telephone is assigned twice. The step passes when no key was set. */
  method ValidateStep(formData: FieldMap) returns (newErrors: Errors, valid: bool)
    ensures newErrors == SectionErrors(Personal, formData)
    ensures valid <==> newErrors == map[]
  {
    newErrors := map[];
    newErrors := SetIf(newErrors, Missing(formData, Branch), Branch, BranchRequired);
    newErrors := SetIf(newErrors, Missing(formData, FullName), FullName, FullNameRequired);
    newErrors := SetIf(newErrors, Missing(formData, Telephone), Telephone, PhoneNumberRequired);
    newErrors := SetIf(newErrors, BadTelephone(formData), Telephone, InvalidPhoneNumber);
    newErrors := SetIf(newErrors, BadEmail(formData), Email, InvalidEmailFormat);
    newErrors := SetIf(newErrors, Missing(formData, Address), Address, AddressRequired);
    newErrors := SetIf(newErrors, Missing(formData, Town), Town, TownRequired);
    newErrors := SetIf(newErrors, Missing(formData, District), District, DistrictRequired);
    newErrors := SetIf(newErrors, Missing(formData, Province), Province, ProvinceRequired);
    newErrors := SetIf(newErrors, Missing(formData, Gender), Gender, GenderRequired);
    Fold(formData);
    valid := |newErrors| == 0;
  }

  /** The ten assignments of ValidateStep, applied to the empty map, compute SectionErrors. */
  lemma Fold(data: FieldMap)
    ensures Checks(data, map[]) == SectionErrors(Personal, data)
  {
    AfterNone(Personal, data);
    ChecksAfter(Personal, data, 0, map[]);
    AfterAll(Personal, data, Checks(data, map[]));
  }

  /** The checks of this step, in the order of the source, applied to x. */
  function Checks(data: FieldMap, x: Errors): Errors {
    UpToGender(data, UpToTown(data, UpToTelephone(data, x)))
  }

  function UpToTelephone(data: FieldMap, x: Errors): Errors {
    SetIf(SetIf(SetIf(SetIf(x,
      Missing(data, Branch), Branch, BranchRequired),
      Missing(data, FullName), FullName, FullNameRequired),
      Missing(data, Telephone), Telephone, PhoneNumberRequired),
      BadTelephone(data), Telephone, InvalidPhoneNumber)
  }

  function UpToTown(data: FieldMap, x: Errors): Errors {
    SetIf(SetIf(SetIf(x,
      BadEmail(data), Email, InvalidEmailFormat),
      Missing(data, Address), Address, AddressRequired),
      Missing(data, Town), Town, TownRequired)
  }

  function UpToGender(data: FieldMap, x: Errors): Errors {
    SetIf(SetIf(SetIf(x,
      Missing(data, District), District, DistrictRequired),
      Missing(data, Province), Province, ProvinceRequired),
      Missing(data, Gender), Gender, GenderRequired)
  }

  /** The checks read nothing but the fields of this step. */
  lemma ChecksAgree(d1: FieldMap, d2: FieldMap, x: Errors)
    requires forall k | k in Required + {Telephone, Email} :: Lookup(d1, k) == Lookup(d2, k)
    ensures Checks(d1, x) == Checks(d2, x)
  {
    assert Lookup(d1, Branch) == Lookup(d2, Branch) && Lookup(d1, FullName) == Lookup(d2, FullName);
    assert Lookup(d1, Telephone) == Lookup(d2, Telephone);
    var y := UpToTelephone(d1, x);
    assert y == UpToTelephone(d2, x);
    assert Lookup(d1, Email) == Lookup(d2, Email) && Lookup(d1, Address) == Lookup(d2, Address);
    assert Lookup(d1, Town) == Lookup(d2, Town);
    var z := UpToTown(d1, y);
    assert z == UpToTown(d2, y);
    assert Lookup(d1, District) == Lookup(d2, District) && Lookup(d1, Province) == Lookup(d2, Province);
    assert Lookup(d1, Gender) == Lookup(d2, Gender);
    assert UpToGender(d1, z) == UpToGender(d2, z);
  }

  /** The checks of this step, wherever they sit in a validator (at n = 0 in this step,
      at the start of the one-page form). */
  lemma ChecksAfter(s: Section, data: FieldMap, n: nat, x: Errors)
    requires Position(s, Branch) == n && Position(s, FullName) == n + 1 && Position(s, Telephone) == n + 2
    requires Position(s, Email) == n + 3 && Position(s, Address) == n + 4 && Position(s, Town) == n + 5
    requires Position(s, District) == n + 6 && Position(s, Province) == n + 7 && Position(s, Gender) == n + 8
    requires n + 9 <= Count(s) && After(s, data, n, x)
    ensures After(s, data, n + 9, Checks(data, x))
  {
    UpToTelephoneAfter(s, data, n, x);
    UpToTownAfter(s, data, n + 3, UpToTelephone(data, x));
    UpToGenderAfter(s, data, n + 6, UpToTown(data, UpToTelephone(data, x)));
  }

  lemma UpToTelephoneAfter(s: Section, data: FieldMap, n: nat, x: Errors)
    requires Position(s, Branch) == n && Position(s, FullName) == n + 1 && Position(s, Telephone) == n + 2
    requires n + 3 <= Count(s) && After(s, data, n, x)
    ensures After(s, data, n + 3, UpToTelephone(data, x))
  {
    CheckRequired(s, data, n, Branch, BranchRequired, x);
    var x1 := SetIf(x, Missing(data, Branch), Branch, BranchRequired);
    CheckRequired(s, data, n + 1, FullName, FullNameRequired, x1);
    CheckTelephone(s, data, n + 2, SetIf(x1, Missing(data, FullName), FullName, FullNameRequired));
  }

  lemma UpToTownAfter(s: Section, data: FieldMap, n: nat, x: Errors)
    requires Position(s, Email) == n && Position(s, Address) == n + 1 && Position(s, Town) == n + 2
    requires n + 3 <= Count(s) && After(s, data, n, x)
    ensures After(s, data, n + 3, UpToTown(data, x))
  {
    CheckEmail(s, data, n, x);
    var x1 := SetIf(x, BadEmail(data), Email, InvalidEmailFormat);
    CheckRequired(s, data, n + 1, Address, AddressRequired, x1);
    CheckRequired(s, data, n + 2, Town, TownRequired, SetIf(x1, Missing(data, Address), Address, AddressRequired));
  }

  lemma UpToGenderAfter(s: Section, data: FieldMap, n: nat, x: Errors)
    requires Position(s, District) == n && Position(s, Province) == n + 1 && Position(s, Gender) == n + 2
    requires n + 3 <= Count(s) && After(s, data, n, x)
    ensures After(s, data, n + 3, UpToGender(data, x))
  {
    CheckRequired(s, data, n, District, DistrictRequired, x);
    var x1 := SetIf(x, Missing(data, District), District, DistrictRequired);
    CheckRequired(s, data, n + 1, Province, ProvinceRequired, x1);
    CheckRequired(s, data, n + 2, Gender, GenderRequired, SetIf(x1, Missing(data, Province), Province, ProvinceRequired));
  }

  /** The step lets the applicant on exactly when every required field is filled in,
      the telephone is nine digits and the email, if given, matches the pattern. */
  lemma PassesIff(data: FieldMap)
    ensures SectionErrors(Personal, data) == map[] <==>
      (forall k | k in Required :: !Missing(data, k)) && !BadTelephone(data) && !BadEmail(data)
  {
    ReportsOn(data);
    ErrorsOnEmpty(data, Required + {Telephone, Email});
    assert Telephone in Required + {Telephone, Email} && Email in Required + {Telephone, Email};
  }

  /** The telephone's "required" message never survives: a missing telephone is
      reported as an invalid number, and the telephone is reported exactly when it
      is not nine digits. */
  lemma TelephoneNeverRequired(data: FieldMap)
    ensures PhoneNumberRequired !in SectionErrors(Personal, data).Values
    ensures Telephone in SectionErrors(Personal, data) <==> BadTelephone(data)
    ensures Missing(data, Telephone) ==> Get(SectionErrors(Personal, data), Telephone) == Some(InvalidPhoneNumber)
  {
    var e := SectionErrors(Personal, data);
    forall k | k in e ensures e[k] != PhoneNumberRequired {
    }
    if Missing(data, Telephone) {
      MissingTelephoneIsBad(data);
    }
  }

  /** An empty email is never an error, and only this step's nine fields are ever
      reported: title, short name and country are never checked. */
  lemma ReportedFields(data: FieldMap)
    ensures Missing(data, Email) ==> Email !in SectionErrors(Personal, data)
    ensures forall k | k in SectionErrors(Personal, data) :: k in Required || k == Telephone || k == Email
    ensures Title !in SectionErrors(Personal, data) && ShortName !in SectionErrors(Personal, data)
    ensures Country !in SectionErrors(Personal, data)
  {
    var e := SectionErrors(Personal, data);
    forall k | k in e ensures k in Required || k == Telephone || k == Email {
      CheckedFields(k);
    }
    CheckedFields(Title);
    CheckedFields(ShortName);
    CheckedFields(Country);
  }

  /** The step checks its nine fields and no other. */
  lemma CheckedFields(k: Field)
    ensures Checked(Personal, k) <==> k in Required || k == Telephone || k == Email
  {
  }

  /** The step reports the faults of its nine fields and of no other. */
  lemma ReportsOn(data: FieldMap)
    ensures SectionErrors(Personal, data) == ErrorsOn(data, Required + {Telephone, Email})
  {
    forall k ensures Checked(Personal, k) <==> k in Required + {Telephone, Email} {
      CheckedFields(k);
    }
    SectionIsErrorsOn(Personal, data, Required + {Telephone, Email});
  }
}
