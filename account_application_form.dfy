/** The one-page account application form: every field of the four wizard steps on
    one screen, the documents kept in state variables of their own, and one validator. */
module AccountApplicationForm {
  import opened Js
  import opened Forms
  import PersonalDetailsStep
  import IdentificationDetailsStep
  import DocumentUploadsStep
  import AdditionalInfoStep

  /** The initial form data: every text field empty, the country and the nationality
      prefilled, the conditions not accepted. */
  function InitialFormData(): (data: FieldMap)
    ensures forall k | k in data :: k !in DocumentFields
  {
    map[Branch := Text(""), Title := Text(""), FullName := Text(""), ShortName := Text(""),
        Gender := Text(""), Address := Text(""), Town := Text(""), District := Text(""),
        Province := Text(""), Country := Text("Mozambique"), Telephone := Text(""), Email := Text(""),
        IdType := Text(""), IdNumber := Text(""), IdIssueDate := Text(""), IdExpiryDate := Text(""),
        IdPlaceOfIssue := Text(""), Nuit := Text(""), Dob := Text(""), Pob := Text(""),
        Nationality := Text("Mozambican"), MaritalStatus := Text(""), SecondAccountHolder := Text(""),
        AcceptConditions := Flag(false)]
  }

  /** The ids of the four file inputs; each has a state variable of its own. */
  const DocumentFields: set<Field> := {NuitDocument, IdCardDocument, ResidentialProofDocument, OtherSupportingDocument}

  /** A document state variable as a form value: null until a file is chosen. */
  function Slot(f: Option<File>): Value {
    match f
    case None => Null
    case Some(file) => Upload(file)
  }

  /** What the validator looks at: the form data, with the three required documents
      read from their state variables. */
  function WithDocuments(formData: FieldMap, nuit: Option<File>, idCard: Option<File>, residence: Option<File>): FieldMap {
    formData[NuitDocument := Slot(nuit)][IdCardDocument := Slot(idCard)][ResidentialProofDocument := Slot(residence)]
  }

  /** validateForm: twenty-four guarded assignments into a fresh map, in the order of the
      source (the telephone twice); the document checks read the state variables. */
  method Validate(formData: FieldMap, nuit: Option<File>, idCard: Option<File>, residence: Option<File>)
    returns (newErrors: Errors, valid: bool)
    ensures newErrors == SectionErrors(Application, WithDocuments(formData, nuit, idCard, residence))
    ensures valid <==> newErrors == map[]
  {
    newErrors := map[];
    newErrors := SetIf(newErrors, Missing(formData, Branch), Branch, BranchRequired);
    newErrors := SetIf(newErrors, Missing(formData, FullName), FullName, FullNameRequired);
    newErrors := SetIf(newErrors, Missing(formData, Telephone), Telephone, PhoneNumberRequired);
    newErrors := SetIf(newErrors, BadTelephone(formData), Telephone, InvalidPhoneNumber);
    newErrors := SetIf(newErrors, BadEmail(formData), Email, InvalidEmailFormat);
    newErrors := SetIf(newErrors, Missing(formData, Address), Address, AddressRequired);
    newErrors := SetIf(newErrors, Missing(formData, Town), Town, TownRequired);
    newErrors := SetIf(newErrors, Missing(formData, District), District, DistrictRequired);
    newErrors := SetIf(newErrors, Missing(formData, Province), Province, ProvinceRequired);
    newErrors := SetIf(newErrors, Missing(formData, Gender), Gender, GenderRequired);
    newErrors := SetIf(newErrors, Missing(formData, IdType), IdType, IdTypeRequired);
    newErrors := SetIf(newErrors, Missing(formData, IdNumber), IdNumber, IdNumberRequired);
    newErrors := SetIf(newErrors, Missing(formData, IdIssueDate), IdIssueDate, IssueDateRequired);
    newErrors := SetIf(newErrors, Missing(formData, IdExpiryDate), IdExpiryDate, ExpiryDateRequired);
    newErrors := SetIf(newErrors, Missing(formData, IdPlaceOfIssue), IdPlaceOfIssue, PlaceOfIssueRequired);
    newErrors := SetIf(newErrors, Missing(formData, Nuit), Nuit, NuitRequired);
    newErrors := SetIf(newErrors, Missing(formData, Dob), Dob, DobRequired);
    newErrors := SetIf(newErrors, Missing(formData, Pob), Pob, PobRequired);
    newErrors := SetIf(newErrors, Missing(formData, Nationality), Nationality, NationalityRequired);
    newErrors := SetIf(newErrors, Missing(formData, MaritalStatus), MaritalStatus, MaritalStatusRequired);
    newErrors := SetIf(newErrors, nuit.None?, NuitDocument, NuitDocumentRequired);
    newErrors := SetIf(newErrors, idCard.None?, IdCardDocument, IdCardRequired);
    newErrors := SetIf(newErrors, residence.None?, ResidentialProofDocument, ResidentialProofRequired);
    newErrors := SetIf(newErrors, Missing(formData, AcceptConditions), AcceptConditions, AcceptConditionsRequired);
    Fold(formData, nuit, idCard, residence);
    valid := |newErrors| == 0;
  }

  /** The checks of validateForm, applied to x. */
  function Checks(formData: FieldMap, nuit: Option<File>, idCard: Option<File>, residence: Option<File>, x: Errors): Errors {
    AdditionalInfoStep.Check(formData,
      SetIf(SetIf(SetIf(IdentificationDetailsStep.Checks(formData, PersonalDetailsStep.Checks(formData, x)),
        nuit.None?, NuitDocument, NuitDocumentRequired),
        idCard.None?, IdCardDocument, IdCardRequired),
        residence.None?, ResidentialProofDocument, ResidentialProofRequired))
  }

  /** The assignments of Validate, applied to the empty map, compute SectionErrors. */
  lemma Fold(formData: FieldMap, nuit: Option<File>, idCard: Option<File>, residence: Option<File>)
    ensures Checks(formData, nuit, idCard, residence, map[]) == SectionErrors(Application, WithDocuments(formData, nuit, idCard, residence))
  {
    var v := WithDocuments(formData, nuit, idCard, residence);
    StepsInOrder(v);
    SameChecks(formData, nuit, idCard, residence);
  }

  /** validateForm makes the checks of the four wizard steps one after the other. */
  lemma StepsInOrder(data: FieldMap)
    ensures AdditionalInfoStep.Check(data, DocumentUploadsStep.Checks(data,
              IdentificationDetailsStep.Checks(data, PersonalDetailsStep.Checks(data, map[]))))
            == SectionErrors(Application, data)
  {
    var q := IdentificationDetailsStep.Checks(data, PersonalDetailsStep.Checks(data, map[]));
    FirstTwoSteps(data);
    ApplicationDocumentPositions();
    DocumentUploadsStep.ChecksAfter(Application, data, 19, q);
    AdditionalInfoStep.CheckAfter(Application, data, 22, DocumentUploadsStep.Checks(data, q));
    AfterAll(Application, data, AdditionalInfoStep.Check(data, DocumentUploadsStep.Checks(data, q)));
  }

  lemma FirstTwoSteps(data: FieldMap)
    ensures After(Application, data, 19, IdentificationDetailsStep.Checks(data, PersonalDetailsStep.Checks(data, map[])))
  {
    AfterNone(Application, data);
    ApplicationPersonalPositions();
    ApplicationIdentificationPositions();
    PersonalDetailsStep.ChecksAfter(Application, data, 0, map[]);
    IdentificationDetailsStep.ChecksAfter(Application, data, 9, PersonalDetailsStep.Checks(data, map[]));
  }

  /** Reading the documents from their state variables or from the combined view gives
      the same checks. */
  lemma SameChecks(formData: FieldMap, nuit: Option<File>, idCard: Option<File>, residence: Option<File>)
    ensures var v := WithDocuments(formData, nuit, idCard, residence);
      Checks(formData, nuit, idCard, residence, map[])
      == AdditionalInfoStep.Check(v, DocumentUploadsStep.Checks(v,
           IdentificationDetailsStep.Checks(v, PersonalDetailsStep.Checks(v, map[]))))
  {
    var v := WithDocuments(formData, nuit, idCard, residence);
    var p := PersonalDetailsStep.Checks(formData, map[]);
    var q := IdentificationDetailsStep.Checks(formData, p);
    FirstTwoStepsAgree(formData, nuit, idCard, residence);
    DocumentChecksReadState(formData, nuit, idCard, residence, q);
    ConditionsCheckAgrees(formData, nuit, idCard, residence, DocumentUploadsStep.Checks(v, q));
  }
  /** The personal and identification checks never look at the documents. */
  lemma FirstTwoStepsAgree(formData: FieldMap, nuit: Option<File>, idCard: Option<File>, residence: Option<File>)
    ensures var v := WithDocuments(formData, nuit, idCard, residence);
      IdentificationDetailsStep.Checks(formData, PersonalDetailsStep.Checks(formData, map[]))
      == IdentificationDetailsStep.Checks(v, PersonalDetailsStep.Checks(v, map[]))
  {
    var v := WithDocuments(formData, nuit, idCard, residence);
    PersonalFieldsKept(formData, nuit, idCard, residence);
    IdentificationFieldsKept(formData, nuit, idCard, residence);
    PersonalDetailsStep.ChecksAgree(formData, v, map[]);
    IdentificationDetailsStep.ChecksAgree(formData, v, PersonalDetailsStep.Checks(formData, map[]));
  }
  /** A document check of the view tests whether its state variable is null. */
  lemma DocumentChecksReadState(formData: FieldMap, nuit: Option<File>, idCard: Option<File>, residence: Option<File>, q: Errors)
    ensures DocumentUploadsStep.Checks(WithDocuments(formData, nuit, idCard, residence), q) ==
      SetIf(SetIf(SetIf(q, nuit.None?, NuitDocument, NuitDocumentRequired),
        idCard.None?, IdCardDocument, IdCardRequired),
        residence.None?, ResidentialProofDocument, ResidentialProofRequired)
  {
  }
  /** The conditions check never looks at the documents. */
  lemma ConditionsCheckAgrees(formData: FieldMap, nuit: Option<File>, idCard: Option<File>, residence: Option<File>, r: Errors)
    ensures AdditionalInfoStep.Check(formData, r) == AdditionalInfoStep.Check(WithDocuments(formData, nuit, idCard, residence), r)
  {
  }

  /** The view differs from the form data in the three required documents only. */
  lemma PersonalFieldsKept(formData: FieldMap, nuit: Option<File>, idCard: Option<File>, residence: Option<File>)
    ensures forall k | k in PersonalDetailsStep.Required + {Telephone, Email} ::
      Lookup(formData, k) == Lookup(WithDocuments(formData, nuit, idCard, residence), k)
  {
  }

  lemma IdentificationFieldsKept(formData: FieldMap, nuit: Option<File>, idCard: Option<File>, residence: Option<File>)
    ensures forall k | k in IdentificationDetailsStep.Required ::
      Lookup(formData, k) == Lookup(WithDocuments(formData, nuit, idCard, residence), k)
  {
  }

  /** The validator reports exactly what the four wizard steps report between them:
      the one-page form and the wizard agree on every field. */
  lemma FormIsUnionOfSteps(data: FieldMap)
    ensures SectionErrors(Application, data) ==
      SectionErrors(Personal, data) + SectionErrors(Identification, data)
      + SectionErrors(Documents, data) + SectionErrors(Additional, data)
  {
    var pf := PersonalDetailsStep.Required + {Telephone, Email};
    var qf := IdentificationDetailsStep.Required;
    var df := DocumentUploadsStep.Required;
    PersonalDetailsStep.ReportsOn(data);
    IdentificationDetailsStep.ReportsOn(data);
    DocumentUploadsStep.ReportsOn(data);
    AdditionalInfoStep.ReportsOn(data);
    ReportsOn(data);
    ErrorsOnUnion(data, pf, qf);
    ErrorsOnUnion(data, pf + qf, df);
    ErrorsOnUnion(data, pf + qf + df, {AcceptConditions});
  }

  /** The form reports the faults of the fields the four steps check between them. */
  lemma ReportsOn(data: FieldMap)
    ensures SectionErrors(Application, data) == ErrorsOn(data, PersonalDetailsStep.Required + {Telephone, Email}
      + IdentificationDetailsStep.Required + DocumentUploadsStep.Required + {AcceptConditions})
  {
    var fs := PersonalDetailsStep.Required + {Telephone, Email}
      + IdentificationDetailsStep.Required + DocumentUploadsStep.Required + {AcceptConditions};
    forall k ensures Checked(Application, k) <==> k in fs {
      CheckedBySomeStep(k);
      PersonalDetailsStep.CheckedFields(k);
      IdentificationDetailsStep.CheckedFields(k);
      DocumentUploadsStep.CheckedFields(k);
      AdditionalInfoStep.CheckedFields(k);
    }
    SectionIsErrorsOn(Application, data, fs);
  }

  /** A field is checked by the form exactly when one of the wizard steps checks it. */
  lemma CheckedBySomeStep(k: Field)
    ensures Checked(Application, k) <==>
      Checked(Personal, k) || Checked(Identification, k) || Checked(Documents, k) || Checked(Additional, k)
  {
  }

  /** The payload handed to onSubmit: the form data with each document replaced by its
      file name, or undefined when none was chosen. */
  function FullFormData(formData: FieldMap, nuit: Option<File>, idCard: Option<File>,
                        residence: Option<File>, other: Option<File>): (r: FieldMap)
    ensures forall k | k !in DocumentFields :: Lookup(r, k) == Lookup(formData, k)
    ensures Lookup(r, NuitDocument) == FileName(nuit) && Lookup(r, IdCardDocument) == FileName(idCard)
    ensures Lookup(r, ResidentialProofDocument) == FileName(residence)
    ensures Lookup(r, OtherSupportingDocument) == FileName(other)
  {
    formData[NuitDocument := FileName(nuit)][IdCardDocument := FileName(idCard)]
            [ResidentialProofDocument := FileName(residence)][OtherSupportingDocument := FileName(other)]
  }

  /** file?.name */
  function FileName(f: Option<File>): Value {
    match f
    case None => Undefined
    case Some(file) => Text(file.name)
  }

  /** The inputs of the page that fire handleChange. The country and nationality
      inputs are disabled; the gender, marital-status and second-holder radio buttons
      carry ids of their own. */
  const ChangeIds: set<Field> :=
    {FullName, ShortName, GenderM, GenderF, Address, Town, District, Province, Telephone, Email,
     IdNumber, IdIssueDate, IdExpiryDate, IdPlaceOfIssue, Nuit, Dob, Pob,
     MaritalSingle, MaritalCommonLaw, MaritalMarried, MaritalDivorced, MaritalWidowed,
     SecondAccountYes, SecondAccountNo, AcceptConditions}

  /** The selects of the page, with the ids their handlers pass. */
  const SelectIds: set<Field> := {Branch, Title, IdType}

  /** An edit of the form data the rendered page can produce (its file inputs fill
      state variables of their own instead). */
  predicate Rendered(ed: Edit) {
    match ed
    case Change(e) => e.id in ChangeIds
    case Select(id, _) => id in SelectIds
    case ChooseFile(_, _) => false
  }

  /** No edit the page can produce writes "gender" or "maritalStatus": from the initial
      data they stay empty. */
  lemma RadiosNeverSetGenderOrMaritalStatus(edits: seq<Edit>)
    requires forall i | 0 <= i < |edits| :: Rendered(edits[i])
    ensures Lookup(Replay(InitialFormData(), edits), Gender) == Text("")
    ensures Lookup(Replay(InitialFormData(), edits), MaritalStatus) == Text("")
  {
    forall i | 0 <= i < |edits| ensures EditId(edits[i]) != Gender && EditId(edits[i]) != MaritalStatus {
      RenderedKeys(edits[i]);
    }
    ReplayKeeps(InitialFormData(), edits, Gender);
    ReplayKeeps(InitialFormData(), edits, MaritalStatus);
    InitialRadios();
  }

  lemma RenderedKeys(ed: Edit)
    requires Rendered(ed)
    ensures EditId(ed) != Gender && EditId(ed) != MaritalStatus
  {
  }

  lemma InitialRadios()
    ensures Lookup(InitialFormData(), Gender) == Text("") && Lookup(InitialFormData(), MaritalStatus) == Text("")
  {
  }

  /** So whatever the applicant types, selects, ticks or uploads, the form reports both
      as missing and the application is never submitted. */
  lemma NeverSubmitted(edits: seq<Edit>, nuit: Option<File>, idCard: Option<File>, residence: Option<File>)
    requires forall i | 0 <= i < |edits| :: Rendered(edits[i])
    ensures var e := SectionErrors(Application, WithDocuments(Replay(InitialFormData(), edits), nuit, idCard, residence));
      Get(e, Gender) == Some(GenderRequired) && Get(e, MaritalStatus) == Some(MaritalStatusRequired) && e != map[]
  {
    var data := Replay(InitialFormData(), edits);
    RadiosNeverSetGenderOrMaritalStatus(edits);
    RadiosMissingReported(data, nuit, idCard, residence);
  }

  lemma RadiosMissingReported(data: FieldMap, nuit: Option<File>, idCard: Option<File>, residence: Option<File>)
    requires Missing(data, Gender) && Missing(data, MaritalStatus)
    ensures var e := SectionErrors(Application, WithDocuments(data, nuit, idCard, residence));
      Get(e, Gender) == Some(GenderRequired) && Get(e, MaritalStatus) == Some(MaritalStatusRequired) && e != map[]
  {
    var v := WithDocuments(data, nuit, idCard, residence);
    assert Lookup(v, Gender) == Lookup(data, Gender) && Lookup(v, MaritalStatus) == Lookup(data, MaritalStatus);
    ApplicationPersonalPositions();
    ApplicationIdentificationPositions3();
    assert Checked(Application, Gender) && Fault(v, Gender) && Message(Gender) == GenderRequired;
    assert Checked(Application, MaritalStatus) && Fault(v, MaritalStatus);
    assert Message(MaritalStatus) == MaritalStatusRequired;
    assert Gender in SectionErrors(Application, v);
  }

  /** Unlike in the wizard, the country and the nationality are prefilled, so the form
      does not report them as long as they are left as they were. */
  lemma NationalityPrefilled(data: FieldMap, nuit: Option<File>, idCard: Option<File>, residence: Option<File>)
    requires Lookup(data, Nationality) == Lookup(InitialFormData(), Nationality)
    ensures Nationality !in SectionErrors(Application, WithDocuments(data, nuit, idCard, residence))
  {
    var v := WithDocuments(data, nuit, idCard, residence);
    assert Lookup(v, Nationality) == Text("Mozambican");
  }

  /** The one-page application form component. */
  class ApplicationForm {
    var formData: FieldMap
    var errors: Errors
    var nuitDocument: Option<File>
    var idCardDocument: Option<File>
    var residentialProofDocument: Option<File>
    var otherSupportingDocument: Option<File>
    /** The argument of the last onSubmit call, None while it has not been called. */
    var submitted: Option<FieldMap>

    constructor ()
      ensures formData == InitialFormData() && errors == map[]
      ensures nuitDocument == None && idCardDocument == None
      ensures residentialProofDocument == None && otherSupportingDocument == None
      ensures submitted == None
    {
      formData := InitialFormData();
      errors := map[];
      nuitDocument := None;
      idCardDocument := None;
      residentialProofDocument := None;
      otherSupportingDocument := None;
      submitted := None;
    }

    /** handleChange and handleSelectChange: store the value under the key and clear
        that key's error. */
    method HandleEdit(ed: Edit)
      requires !ed.ChooseFile?
      modifies this
      ensures formData == Apply(old(formData), ed)
      ensures errors == old(errors)[EditId(ed) := Blank]
      ensures nuitDocument == old(nuitDocument) && idCardDocument == old(idCardDocument)
      ensures residentialProofDocument == old(residentialProofDocument)
      ensures otherSupportingDocument == old(otherSupportingDocument) && submitted == old(submitted)
    {
      formData := Apply(formData, ed);
      errors := errors[EditId(ed) := Blank];
    }

    /** handleFileChange for the file input `input`: a chosen file goes into that input's
        state variable and clears its error; an emptied chooser stores null and leaves
        the error as it was. */
    method HandleFileChange(input: Field, file: Option<File>)
      requires input == NuitDocument || input == IdCardDocument || input == ResidentialProofDocument || input == OtherSupportingDocument
      modifies this
      ensures nuitDocument == (if input == NuitDocument then file else old(nuitDocument))
      ensures idCardDocument == (if input == IdCardDocument then file else old(idCardDocument))
      ensures residentialProofDocument == (if input == ResidentialProofDocument then file else old(residentialProofDocument))
      ensures otherSupportingDocument == (if input == OtherSupportingDocument then file else old(otherSupportingDocument))
      ensures errors == if file.Some? then old(errors)[input := Blank] else old(errors)
      ensures formData == old(formData) && submitted == old(submitted)
    {
      if input == NuitDocument {
        nuitDocument := file;
      } else if input == IdCardDocument {
        idCardDocument := file;
      } else if input == ResidentialProofDocument {
        residentialProofDocument := file;
      } else {
        otherSupportingDocument := file;
      }
      if file.Some? {
        errors := errors[input := Blank];
      }
    }

    /** validateForm: replaces the errors by the validator's map and tells whether it is empty. */
    method ValidateForm() returns (valid: bool)
      modifies this
      ensures errors == SectionErrors(Application, WithDocuments(formData, nuitDocument, idCardDocument, residentialProofDocument))
      ensures valid <==> errors == map[]
      ensures formData == old(formData) && submitted == old(submitted)
      ensures nuitDocument == old(nuitDocument) && idCardDocument == old(idCardDocument)
      ensures residentialProofDocument == old(residentialProofDocument)
      ensures otherSupportingDocument == old(otherSupportingDocument)
    {
      var newErrors;
      newErrors, valid := Validate(formData, nuitDocument, idCardDocument, residentialProofDocument);
      errors := newErrors;
    }

    /** handleSubmit: validate, and only when that passes call onSubmit with the data and
        the document names. */
    method HandleSubmit()
      modifies this
      ensures errors == SectionErrors(Application, WithDocuments(formData, nuitDocument, idCardDocument, residentialProofDocument))
      ensures errors == map[] ==> submitted == Some(FullFormData(formData, nuitDocument, idCardDocument,
                                                                 residentialProofDocument, otherSupportingDocument))
      ensures errors != map[] ==> submitted == old(submitted)
      ensures formData == old(formData)
      ensures nuitDocument == old(nuitDocument) && idCardDocument == old(idCardDocument)
      ensures residentialProofDocument == old(residentialProofDocument)
      ensures otherSupportingDocument == old(otherSupportingDocument)
    {
      var valid := ValidateForm();
      if valid {
        submitted := Some(FullFormData(formData, nuitDocument, idCardDocument,
                                       residentialProofDocument, otherSupportingDocument));
      }
    }
  }
}
