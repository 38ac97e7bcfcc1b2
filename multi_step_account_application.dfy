/** The four-step account application wizard: one shared form data object, one shared
    error map, and the step on screen. */
module MultiStepAccountApplication {
  import opened Js
  import opened Forms
  import PersonalDetailsStep
  import IdentificationDetailsStep
  import DocumentUploadsStep
  import AdditionalInfoStep

  /** The validator of the step on screen; steps outside 0..3 render nothing. */
  function StepSection(step: int): Option<Section> {
    if step == 0 then Some(Personal)
    else if step == 1 then Some(Identification)
    else if step == 2 then Some(Documents)
    else if step == 3 then Some(Additional)
    else None
  }

  /** The edits the controls of the four steps can produce. The country and nationality
      inputs are disabled and never fire. */
  predicate Rendered(ed: Edit) {
    match ed
    case Change(e) => e.id in {FullName, ShortName, Address, Town, District, Province, Telephone, Email,
                               IdNumber, IdIssueDate, IdExpiryDate, IdPlaceOfIssue, Nuit, Dob, Pob,
                               AcceptConditions}
    case Select(id, _) => id in {Branch, Title, Gender, IdType, MaritalStatus, SecondAccountHolder}
    case ChooseFile(input, _) => input in {NuitDocument, IdCardDocument, ResidentialProofDocument, OtherSupportingDocument}
  }

  lemma RenderedNeverNationality(ed: Edit)
    requires Rendered(ed)
    ensures EditId(ed) != Nationality
  {
  }

  /** Nothing the applicant can do stores a nationality: starting from the empty data,
      the identification step reports it as missing whatever edits are made, while the
      disabled input shows "Mozambican". */
  lemma {:induction false} NationalityNeverStored(edits: seq<Edit>)
    requires forall i | 0 <= i < |edits| :: Rendered(edits[i])
    ensures Lookup(Replay(map[], edits), Nationality) == Undefined
    ensures IdentificationDetailsStep.NationalityShown(Replay(map[], edits)) == "Mozambican"
    ensures Get(SectionErrors(Identification, Replay(map[], edits)), Nationality) == Some(NationalityRequired)
  {
    forall i | 0 <= i < |edits| ensures EditId(edits[i]) != Nationality {
      RenderedNeverNationality(edits[i]);
    }
    ReplayKeeps(map[], edits, Nationality);
    IdentificationDetailsStep.NationalityShownButRequired(Replay(map[], edits));
  }

  /** The wizard component. */
  class Wizard {
    var currentStep: int
    var formData: FieldMap
    var errors: Errors
    /** The argument of the last onSubmit call, None while it has not been called. */
    var submitted: Option<FieldMap>

    /** The step is one of the four. */
    predicate Valid()
      reads this
    {
      0 <= currentStep <= 3
    }

    constructor ()
      ensures Valid()
      ensures currentStep == 0 && formData == map[] && errors == map[] && submitted == None
    {
      currentStep := 0;
      formData := map[];
      errors := map[];
      submitted := None;
    }

    /** handleNext: one step on, errors cleared. */
    method HandleNext()
      modifies this
      ensures currentStep == old(currentStep) + 1 && errors == map[]
      ensures formData == old(formData) && submitted == old(submitted)
    {
      currentStep := currentStep + 1;
      errors := map[];
    }

    /** handleBack: one step back, errors cleared. */
    method HandleBack()
      modifies this
      ensures currentStep == old(currentStep) - 1 && errors == map[]
      ensures formData == old(formData) && submitted == old(submitted)
    {
      currentStep := currentStep - 1;
      errors := map[];
    }

    /** The back button of the step on screen: steps 1 to 3 wire it to handleBack,
        the first step to the enclosing flow's onBack, which leaves the wizard as it is
        (the result says whether onBack was called). */
    method PressBack() returns (leftWizard: bool)
      requires Valid()
      modifies this
      ensures Valid()
      ensures leftWizard <==> old(currentStep) == 0
      ensures leftWizard ==> currentStep == 0 && errors == old(errors)
      ensures !leftWizard ==> currentStep == old(currentStep) - 1 && errors == map[]
      ensures formData == old(formData) && submitted == old(submitted)
    {
      leftWizard := currentStep == 0;
      if !leftWizard {
        HandleBack();
      }
    }

    /** The change handlers of the steps (handleChange, handleSelectChange,
        handleFileChange): store the value and clear that key's error, except that an
        emptied file chooser leaves the error as it was. */
    method HandleEdit(ed: Edit)
      modifies this
      ensures formData == Apply(old(formData), ed)
      ensures errors == if ClearsError(ed) then old(errors)[EditId(ed) := Blank] else old(errors)
      ensures currentStep == old(currentStep) && submitted == old(submitted)
    {
      formData := Apply(formData, ed);
      if ClearsError(ed) {
        errors := errors[EditId(ed) := Blank];
      }
    }

    /** handleSubmit of the step on screen: run its validator and store the errors; when
        they are empty go on to the next step, or, on the last step, hand the data to
        onSubmit. */
    method SubmitStep()
      requires Valid()
      modifies this
      ensures Valid()
      ensures formData == old(formData)
      ensures errors == SectionErrors(StepSection(old(currentStep)).value, formData)
      ensures errors == map[] && old(currentStep) < 3 ==> currentStep == old(currentStep) + 1 && submitted == old(submitted)
      ensures errors == map[] && old(currentStep) == 3 ==> currentStep == 3 && submitted == Some(formData)
      ensures errors != map[] ==> currentStep == old(currentStep) && submitted == old(submitted)
    {
      var newErrors, valid;
      if currentStep == 0 {
        newErrors, valid := PersonalDetailsStep.ValidateStep(formData);
      } else if currentStep == 1 {
        newErrors, valid := IdentificationDetailsStep.ValidateStep(formData);
      } else if currentStep == 2 {
        newErrors, valid := DocumentUploadsStep.ValidateStep(formData);
      } else {
        newErrors, valid := AdditionalInfoStep.ValidateStep(formData);
      }
      errors := newErrors;
      if valid {
        if currentStep < 3 {
          HandleNext();
        } else {
          submitted := Some(formData);
        }
      }
    }
  }

  /** While no nationality is stored, submitting the identification step keeps the
      wizard on it. */
  lemma StuckAtIdentification(data: FieldMap)
    requires Missing(data, Nationality)
    ensures SectionErrors(StepSection(1).value, data) != map[]
  {
    IdentificationDetailsStep.NationalityShownButRequired(data);
  }
}
