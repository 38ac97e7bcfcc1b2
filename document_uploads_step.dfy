/** Step 2 of the account-opening wizard: the scanned documents. */
module DocumentUploadsStep {
  import opened Js
  import opened Forms

  /** The three documents the step requires; the other supporting document is optional. */
  const Required: set<Field> := {NuitDocument, IdCardDocument, ResidentialProofDocument}

  /** validateStep: three guarded assignments into a fresh map, in the order of the source. */
  method ValidateStep(formData: FieldMap) returns (newErrors: Errors, valid: bool)
    ensures newErrors == SectionErrors(Documents, formData)
    ensures valid <==> newErrors == map[]
  {
    newErrors := map[];
    newErrors := SetIf(newErrors, Missing(formData, NuitDocument), NuitDocument, NuitDocumentRequired);
    newErrors := SetIf(newErrors, Missing(formData, IdCardDocument), IdCardDocument, IdCardRequired);
    newErrors := SetIf(newErrors, Missing(formData, ResidentialProofDocument), ResidentialProofDocument, ResidentialProofRequired);
    Fold(formData);
    valid := |newErrors| == 0;
  }

  /** The three assignments of ValidateStep, applied to the empty map, compute SectionErrors. */
  lemma Fold(data: FieldMap)
    ensures Checks(data, map[]) == SectionErrors(Documents, data)
  {
    AfterNone(Documents, data);
    ChecksAfter(Documents, data, 0, map[]);
    AfterAll(Documents, data, Checks(data, map[]));
  }

  /** The three checks of this step, applied to x. */
  function Checks(data: FieldMap, x: Errors): Errors {
    SetIf(SetIf(SetIf(x,
      Missing(data, NuitDocument), NuitDocument, NuitDocumentRequired),
      Missing(data, IdCardDocument), IdCardDocument, IdCardRequired),
      Missing(data, ResidentialProofDocument), ResidentialProofDocument, ResidentialProofRequired)
  }

  /** The checks of this step, wherever they sit in a validator (at n = 0 in this step,
      at n = 19 in the one-page form). */
  lemma ChecksAfter(s: Section, data: FieldMap, n: nat, x: Errors)
    requires Position(s, NuitDocument) == n && Position(s, IdCardDocument) == n + 1
    requires Position(s, ResidentialProofDocument) == n + 2
    requires n + 3 <= Count(s) && After(s, data, n, x)
    ensures After(s, data, n + 3, Checks(data, x))
  {
    CheckRequired(s, data, n, NuitDocument, NuitDocumentRequired, x);
    var x1 := SetIf(x, Missing(data, NuitDocument), NuitDocument, NuitDocumentRequired);
    CheckRequired(s, data, n + 1, IdCardDocument, IdCardRequired, x1);
    CheckRequired(s, data, n + 2, ResidentialProofDocument, ResidentialProofRequired,
                  SetIf(x1, Missing(data, IdCardDocument), IdCardDocument, IdCardRequired));
  }

  /** The step lets the applicant on exactly when the NUIT document, the identity card
      and the proof of residence have been chosen; the other supporting document is
      optional and never reported. */
  lemma PassesIff(data: FieldMap)
    ensures SectionErrors(Documents, data) == map[] <==>
      Truthy(Lookup(data, NuitDocument)) && Truthy(Lookup(data, IdCardDocument))
      && Truthy(Lookup(data, ResidentialProofDocument))
    ensures OtherSupportingDocument !in SectionErrors(Documents, data)
  {
    Fold(data);
    var e := Checks(data, map[]);
    if e == map[] {
      assert NuitDocument !in e && IdCardDocument !in e && ResidentialProofDocument !in e;
    }
  }

  /** The step checks its three required documents and no other field. */
  lemma CheckedFields(k: Field)
    ensures Checked(Documents, k) <==> k in Required
  {
  }

  /** The step reports the faults of its three required documents and of no other field. */
  lemma ReportsOn(data: FieldMap)
    ensures SectionErrors(Documents, data) == ErrorsOn(data, Required)
  {
    forall k ensures Checked(Documents, k) <==> k in Required {
      CheckedFields(k);
    }
    SectionIsErrorsOn(Documents, data, Required);
  }
}
