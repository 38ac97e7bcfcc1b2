/** Step 3 of the account-opening wizard: the second account holder and the general conditions. */
module AdditionalInfoStep {
  import opened Js
  import opened Forms

  /** validateStep: the only check is that the conditions were accepted. */
  method ValidateStep(formData: FieldMap) returns (newErrors: Errors, valid: bool)
    ensures newErrors == SectionErrors(Additional, formData)
    ensures valid <==> newErrors == map[]
  {
    newErrors := map[];
    newErrors := SetIf(newErrors, Missing(formData, AcceptConditions), AcceptConditions, AcceptConditionsRequired);
    Fold(formData);
    valid := |newErrors| == 0;
  }

  /** The assignment of ValidateStep, applied to the empty map, computes SectionErrors. */
  lemma Fold(data: FieldMap)
    ensures Check(data, map[]) == SectionErrors(Additional, data)
  {
    AfterNone(Additional, data);
    CheckAfter(Additional, data, 0, map[]);
    AfterAll(Additional, data, Check(data, map[]));
  }

  /** The check of this step, applied to x. */
  function Check(data: FieldMap, x: Errors): Errors {
    SetIf(x, Missing(data, AcceptConditions), AcceptConditions, AcceptConditionsRequired)
  }

  /** The check of this step, wherever it sits in a validator (at n = 0 in this step,
      last in the one-page form). */
  lemma CheckAfter(s: Section, data: FieldMap, n: nat, x: Errors)
    requires Position(s, AcceptConditions) == n < Count(s) && After(s, data, n, x)
    ensures After(s, data, n + 1, Check(data, x))
  {
    CheckRequired(s, data, n, AcceptConditions, AcceptConditionsRequired, x);
  }

  /** The step passes exactly when the conditions checkbox is ticked; whether there is a
      second account holder is never checked. */
  lemma PassesIff(data: FieldMap)
    ensures SectionErrors(Additional, data) == map[] <==> Truthy(Lookup(data, AcceptConditions))
    ensures SecondAccountHolder !in SectionErrors(Additional, data)
    ensures Lookup(data, AcceptConditions) == Flag(false) ==>
      SectionErrors(Additional, data) == map[AcceptConditions := AcceptConditionsRequired]
  {
    var e := SectionErrors(Additional, data);
    if e == map[] {
      assert AcceptConditions !in e;
    }
  }

  /** The step checks the conditions checkbox and no other field. */
  lemma CheckedFields(k: Field)
    ensures Checked(Additional, k) <==> k == AcceptConditions
  {
  }

  /** The step reports a fault of the conditions checkbox and of no other field. */
  lemma ReportsOn(data: FieldMap)
    ensures SectionErrors(Additional, data) == ErrorsOn(data, {AcceptConditions})
  {
    forall k ensures Checked(Additional, k) <==> k in {AcceptConditions} {
      CheckedFields(k);
    }
    SectionIsErrorsOn(Additional, data, {AcceptConditions});
  }
}
