/** Form data, error maps and the messages shared by the account-opening screens
    and the sign-in screens. Messages are the keys of the bilingual translation
    table, not their text. */
module Forms {
  import opened Js
  import opened Patterns

  /** The ids of the inputs, selects and file inputs the account-opening screens
      render; a handler uses the id of the element that fired as the key it writes.
      The radio buttons of the one-page form carry ids of their own. */
  datatype Field =
    | Branch | Title | FullName | ShortName | Gender | Address | Town | District
    | Province | Country | Telephone | Email
    | IdType | IdNumber | IdIssueDate | IdExpiryDate | IdPlaceOfIssue | Nuit | Dob | Pob
    | Nationality | MaritalStatus | SecondAccountHolder | AcceptConditions
    | NuitDocument | IdCardDocument | ResidentialProofDocument | OtherSupportingDocument
    | GenderM | GenderF
    | MaritalSingle | MaritalCommonLaw | MaritalMarried | MaritalDivorced | MaritalWidowed
    | SecondAccountYes | SecondAccountNo

  /** The id attribute, i.e. the property name the field is stored under. */
  function Id(f: Field): string {
    match f
    case Branch => "branch"
    case Title => "title"
    case FullName => "fullName"
    case ShortName => "shortName"
    case Gender => "gender"
    case Address => "address"
    case Town => "town"
    case District => "district"
    case Province => "province"
    case Country => "country"
    case Telephone => "telephone"
    case Email => "email"
    case IdType => "idType"
    case IdNumber => "idNumber"
    case IdIssueDate => "idIssueDate"
    case IdExpiryDate => "idExpiryDate"
    case IdPlaceOfIssue => "idPlaceOfIssue"
    case Nuit => "nuit"
    case Dob => "dob"
    case Pob => "pob"
    case Nationality => "nationality"
    case MaritalStatus => "maritalStatus"
    case SecondAccountHolder => "secondAccountHolder"
    case AcceptConditions => "acceptConditions"
    case NuitDocument => "nuitDocument"
    case IdCardDocument => "idCardDocument"
    case ResidentialProofDocument => "residentialProofDocument"
    case OtherSupportingDocument => "otherSupportingDocument"
    case GenderM => "gender-m"
    case GenderF => "gender-f"
    case MaritalSingle => "marital-single"
    case MaritalCommonLaw => "marital-common-law-marriage"
    case MaritalMarried => "marital-married"
    case MaritalDivorced => "marital-divorced"
    case MaritalWidowed => "marital-widowed"
    case SecondAccountYes => "second-account-yes"
    case SecondAccountNo => "second-account-no"
  }

  /** A form's data object: field to value. A field never set is absent. */
  type FieldMap = map<Field, Value>

  /** The messages of the translation table that the validators use; Blank is the
      empty string a handler writes to clear a field's error. */
  datatype Msg =
    | Blank
    | BranchRequired | FullNameRequired | PhoneNumberRequired | InvalidPhoneNumber
    | InvalidEmailFormat | AddressRequired | TownRequired | DistrictRequired
    | ProvinceRequired | GenderRequired
    | IdTypeRequired | IdNumberRequired | IssueDateRequired | ExpiryDateRequired
    | PlaceOfIssueRequired | NuitRequired | DobRequired | PobRequired
    | NationalityRequired | MaritalStatusRequired
    | NuitDocumentRequired | IdCardRequired | ResidentialProofRequired
    | AcceptConditionsRequired
    | EnterValid4DigitOtp
    | UsernameAndPasswordRequired | PhoneEmailRequired | InvalidMozambicanPhoneNumber
    | PasswordsDoNotMatch | PasswordLengthError | FillAllRequiredFields

  /** Field to message; validators build a fresh one on every attempt. */
  type Errors = map<Field, Msg>

  /** formData.k : an absent field reads as undefined. */
  function Lookup(data: FieldMap, k: Field): (v: Value)
    ensures k !in data ==> v == Undefined
  {
    if k in data then data[k] else Undefined
  }

  /** !formData.k : the field is absent or holds a falsy value. */
  predicate Missing(data: FieldMap, k: Field) {
    !Truthy(Lookup(data, k))
  }

  /** !/^\d{9}$/.test(formData.telephone) */
  predicate BadTelephone(data: FieldMap) {
    !NineDigits(ToJsString(Lookup(data, Telephone)))
  }

  /** formData.email && !/\S+@\S+\.\S+/.test(formData.email) */
  predicate BadEmail(data: FieldMap) {
    Truthy(Lookup(data, Email)) && !EmailPattern(ToJsString(Lookup(data, Email)))
  }

  /** A telephone that is missing can never pass the nine-digit check: String() of
      "", false, null or undefined is not nine digits. */
  lemma MissingTelephoneIsBad(data: FieldMap)
    requires Missing(data, Telephone)
    ensures BadTelephone(data)
  {
    var s := ToJsString(Lookup(data, Telephone));
    if |s| == 9 {
      assert !IsDigit(s[0]);
    }
  }

  /** The "required" message of each field that has one. */
  function RequiredMessage(k: Field): (m: Msg)
    ensures m != Blank && m != InvalidPhoneNumber && m != InvalidEmailFormat
  {
    match k
    case Branch => BranchRequired
    case FullName => FullNameRequired
    case Telephone => PhoneNumberRequired
    case Address => AddressRequired
    case Town => TownRequired
    case District => DistrictRequired
    case Province => ProvinceRequired
    case Gender => GenderRequired
    case IdType => IdTypeRequired
    case IdNumber => IdNumberRequired
    case IdIssueDate => IssueDateRequired
    case IdExpiryDate => ExpiryDateRequired
    case IdPlaceOfIssue => PlaceOfIssueRequired
    case Nuit => NuitRequired
    case Dob => DobRequired
    case Pob => PobRequired
    case Nationality => NationalityRequired
    case MaritalStatus => MaritalStatusRequired
    case NuitDocument => NuitDocumentRequired
    case IdCardDocument => IdCardRequired
    case ResidentialProofDocument => ResidentialProofRequired
    case _ => AcceptConditionsRequired
  }

  /** Whether a validator reports field k: the telephone when it is not nine
      digits, the email when it is given but malformed, any other field when missing. */
  predicate Fault(data: FieldMap, k: Field) {
    if k == Telephone then BadTelephone(data)
    else if k == Email then BadEmail(data)
    else Missing(data, k)
  }

  /** The message field k is left with when it is reported. */
  function Message(k: Field): Msg {
    if k == Telephone then InvalidPhoneNumber
    else if k == Email then InvalidEmailFormat
    else RequiredMessage(k)
  }

  /** `if (c) newErrors.k = m`: one guarded assignment of a validator. */
  function SetIf(errs: Errors, c: bool, k: Field, m: Msg): Errors {
    if c then errs[k := m] else errs
  }

  /** The validators: the four steps of the wizard and the one-page application form. */
  datatype Section = Personal | Identification | Documents | Additional | Application

  /** How many checks validator s makes. */
  function Count(s: Section): nat {
    match s
    case Personal => 9
    case Identification => 10
    case Documents => 3
    case Additional => 1
    case Application => 23
  }

  /** The field of check i of validator s, in the order the checks are written. */
  function At(s: Section, i: nat): Field
    requires i < Count(s)
  {
    match s
    case Personal => (
      match i
      case 0 => Branch case 1 => FullName case 2 => Telephone case 3 => Email case 4 => Address
      case 5 => Town case 6 => District case 7 => Province case _ => Gender)
    case Identification => (
      match i
      case 0 => IdType case 1 => IdNumber case 2 => IdIssueDate case 3 => IdExpiryDate
      case 4 => IdPlaceOfIssue case 5 => Nuit case 6 => Dob case 7 => Pob case 8 => Nationality
      case _ => MaritalStatus)
    case Documents => (
      match i
      case 0 => NuitDocument case 1 => IdCardDocument case _ => ResidentialProofDocument)
    case Additional => AcceptConditions
    case Application => (
      match i
      case 0 => Branch case 1 => FullName case 2 => Telephone case 3 => Email case 4 => Address
      case 5 => Town case 6 => District case 7 => Province case 8 => Gender case 9 => IdType
      case 10 => IdNumber case 11 => IdIssueDate case 12 => IdExpiryDate
      case 13 => IdPlaceOfIssue case 14 => Nuit case 15 => Dob case 16 => Pob
      case 17 => Nationality case 18 => MaritalStatus case 19 => NuitDocument
      case 20 => IdCardDocument case 21 => ResidentialProofDocument case _ => AcceptConditions)
  }

  /** The index of k's check in validator s; Count(s) when s does not check k. */
  function Position(s: Section, k: Field): nat {
    match s
    case Personal => (
      match k
      case Branch => 0 case FullName => 1 case Telephone => 2 case Email => 3 case Address => 4
      case Town => 5 case District => 6 case Province => 7 case Gender => 8 case _ => 9)
    case Identification => (
      match k
      case IdType => 0 case IdNumber => 1 case IdIssueDate => 2 case IdExpiryDate => 3
      case IdPlaceOfIssue => 4 case Nuit => 5 case Dob => 6 case Pob => 7 case Nationality => 8
      case MaritalStatus => 9 case _ => 10)
    case Documents => (
      match k
      case NuitDocument => 0 case IdCardDocument => 1 case ResidentialProofDocument => 2
      case _ => 3)
    case Additional => (
      match k
      case AcceptConditions => 0 case _ => 1)
    case Application => (
      match k
      case Branch => 0 case FullName => 1 case Telephone => 2 case Email => 3 case Address => 4
      case Town => 5 case District => 6 case Province => 7 case Gender => 8 case IdType => 9
      case IdNumber => 10 case IdIssueDate => 11 case IdExpiryDate => 12
      case IdPlaceOfIssue => 13 case Nuit => 14 case Dob => 15 case Pob => 16
      case Nationality => 17 case MaritalStatus => 18 case NuitDocument => 19
      case IdCardDocument => 20 case ResidentialProofDocument => 21 case AcceptConditions => 22
      case _ => 23)
  }

  lemma PersonalPosition(k: Field)
    ensures Position(Personal, k) <= Count(Personal)
    ensures Position(Personal, k) < Count(Personal) ==> At(Personal, Position(Personal, k)) == k
  {
  }

  lemma IdentificationPosition(k: Field)
    ensures Position(Identification, k) <= Count(Identification)
    ensures Position(Identification, k) < Count(Identification) ==> At(Identification, Position(Identification, k)) == k
  {
  }

  lemma DocumentsPosition(k: Field)
    ensures Position(Documents, k) <= Count(Documents)
    ensures Position(Documents, k) < Count(Documents) ==> At(Documents, Position(Documents, k)) == k
  {
  }

  lemma AdditionalPosition(k: Field)
    ensures Position(Additional, k) <= Count(Additional)
    ensures Position(Additional, k) < Count(Additional) ==> At(Additional, Position(Additional, k)) == k
  {
  }

  lemma ApplicationPosition(k: Field)
    ensures Position(Application, k) <= Count(Application)
    ensures Position(Application, k) < Count(Application) ==> At(Application, Position(Application, k)) == k
  {
  }

  /** Where the checks of each wizard step sit in the one-page form, in small groups so
      that each group is evaluated on its own. */
  lemma ApplicationPersonalPositions()
    ensures Position(Application, Branch) == 0 && Position(Application, FullName) == 1
    ensures Position(Application, Telephone) == 2 && Position(Application, Email) == 3
    ensures Position(Application, Address) == 4 && Position(Application, Town) == 5
    ensures Position(Application, District) == 6 && Position(Application, Province) == 7
    ensures Position(Application, Gender) == 8
  {
  }

  lemma ApplicationIdentificationPositions()
    ensures Position(Application, IdType) == 9 && Position(Application, IdNumber) == 10
    ensures Position(Application, IdIssueDate) == 11 && Position(Application, IdExpiryDate) == 12
    ensures Position(Application, IdPlaceOfIssue) == 13 && Position(Application, Nuit) == 14
    ensures Position(Application, Dob) == 15 && Position(Application, Pob) == 16
    ensures Position(Application, Nationality) == 17 && Position(Application, MaritalStatus) == 18
  {
    ApplicationIdentificationPositions1();
    ApplicationIdentificationPositions2();
    ApplicationIdentificationPositions3();
  }

  lemma ApplicationIdentificationPositions1()
    ensures Position(Application, IdType) == 9 && Position(Application, IdNumber) == 10
    ensures Position(Application, IdIssueDate) == 11
  {
  }

  lemma ApplicationIdentificationPositions2()
    ensures Position(Application, IdExpiryDate) == 12 && Position(Application, IdPlaceOfIssue) == 13
    ensures Position(Application, Nuit) == 14
  {
  }

  lemma ApplicationIdentificationPositions3()
    ensures Position(Application, Dob) == 15 && Position(Application, Pob) == 16
    ensures Position(Application, Nationality) == 17 && Position(Application, MaritalStatus) == 18
  {
  }

  lemma ApplicationDocumentPositions()
    ensures Position(Application, NuitDocument) == 19 && Position(Application, IdCardDocument) == 20
    ensures Position(Application, ResidentialProofDocument) == 21 && Position(Application, AcceptConditions) == 22
  {
  }

  /** At and Position are inverse: each checked field has exactly one check. */
  lemma AtPosition(s: Section, k: Field)
    ensures Position(s, k) <= Count(s)
    ensures Position(s, k) < Count(s) ==> At(s, Position(s, k)) == k
  {
    match s
    case Personal => PersonalPosition(k);
    case Identification => IdentificationPosition(k);
    case Documents => DocumentsPosition(k);
    case Additional => AdditionalPosition(k);
    case Application => ApplicationPosition(k);
  }

  /** Whether validator s checks field k. */
  predicate Checked(s: Section, k: Field) {
    Position(s, k) < Count(s)
  }

  /** The error map validator s produces for data: every checked field at fault,
      with its message. */
  function SectionErrors(s: Section, data: FieldMap): Errors {
    map k | Checked(s, k) && Fault(data, k) :: Message(k)
  }

  /** The error map of a validator that checks exactly the fields fs. */
  function ErrorsOn(data: FieldMap, fs: set<Field>): Errors {
    map k | k in fs && Fault(data, k) :: Message(k)
  }

  /** Checking two groups of fields reports what checking their union reports. */
  lemma ErrorsOnUnion(data: FieldMap, fs: set<Field>, gs: set<Field>)
    ensures ErrorsOn(data, fs) + ErrorsOn(data, gs) == ErrorsOn(data, fs + gs)
  {
  }

  /** Such a validator passes exactly when none of its fields is at fault. */
  lemma ErrorsOnEmpty(data: FieldMap, fs: set<Field>)
    ensures ErrorsOn(data, fs) == map[] <==> forall k | k in fs :: !Fault(data, k)
  {
    if ErrorsOn(data, fs) != map[] {
      var k :| k in ErrorsOn(data, fs);
    } else {
      forall k | k in fs ensures !Fault(data, k) {
        assert Fault(data, k) ==> k in ErrorsOn(data, fs);
      }
    }
  }

  /** A validator that checks exactly the fields fs reports ErrorsOn(data, fs). */
  lemma SectionIsErrorsOn(s: Section, data: FieldMap, fs: set<Field>)
    requires forall k :: Checked(s, k) <==> k in fs
    ensures SectionErrors(s, data) == ErrorsOn(data, fs)
  {
  }

  /** newErrors[k], with None for a key the map does not have. */
  function Get(m: Errors, k: Field): Option<Msg> {
    if k in m then Some(m[k]) else None
  }

  /** What newErrors[k] is once the first n checks of validator s have run. */
  function Expected(s: Section, data: FieldMap, n: nat, k: Field): Option<Msg> {
    if Position(s, k) < n && Fault(data, k) then Some(Message(k)) else None
  }

  /** m is the error map after the first n checks of validator s. */
  ghost predicate After(s: Section, data: FieldMap, n: nat, m: Errors) {
    forall k :: Get(m, k) == Expected(s, data, n, k)
  }

  /** Before any check the map is empty. */
  lemma AfterNone(s: Section, data: FieldMap)
    ensures After(s, data, 0, map[])
  {
  }

  /** Running check n (of field k) on the map after n checks gives the map after n + 1. */
  lemma AfterNext(s: Section, data: FieldMap, n: nat, k: Field, prev: Errors, next: Errors)
    requires Position(s, k) == n < Count(s) && After(s, data, n, prev)
    requires next == if Fault(data, k) then prev[k := Message(k)] else prev
    ensures After(s, data, n + 1, next)
  {
    AtPosition(s, k);
    forall j ensures Get(next, j) == Expected(s, data, n + 1, j) {
      AfterNextAt(s, data, n, k, prev, next, j);
    }
  }

  /** The same, one key at a time. */
  lemma AfterNextAt(s: Section, data: FieldMap, n: nat, k: Field, prev: Errors, next: Errors, j: Field)
    requires Position(s, k) == n < Count(s) && Get(prev, j) == Expected(s, data, n, j)
    requires next == if Fault(data, k) then prev[k := Message(k)] else prev
    ensures Get(next, j) == Expected(s, data, n + 1, j)
  {
    if j != k && Position(s, j) == n {
      PositionInjective(s, j, k);
    }
  }

  /** Two fields never share a check. */
  lemma PositionInjective(s: Section, j: Field, k: Field)
    requires Position(s, j) == Position(s, k) < Count(s)
    ensures j == k
  {
    AtPosition(s, j);
    AtPosition(s, k);
  }

  /** The map after all the checks of validator s is SectionErrors(s, data). */
  lemma AfterAll(s: Section, data: FieldMap, m: Errors)
    requires After(s, data, Count(s), m)
    ensures m == SectionErrors(s, data)
  {
    var r := SectionErrors(s, data);
    forall j ensures (j in m <==> j in r) && (j in m ==> m[j] == r[j]) {
      assert Get(m, j) == Expected(s, data, Count(s), j);
    }
  }

  /** A "required" check of a validator, as the source writes it, moves the
      invariant one check further. */
  lemma CheckRequired(s: Section, data: FieldMap, n: nat, k: Field, m: Msg, x: Errors)
    requires Position(s, k) == n < Count(s) && After(s, data, n, x)
    requires k != Telephone && k != Email && m == RequiredMessage(k)
    ensures After(s, data, n + 1, SetIf(x, Missing(data, k), k, m))
  {
    AfterNext(s, data, n, k, x, SetIf(x, Missing(data, k), k, m));
  }

  /** The same for the email check. */
  lemma CheckEmail(s: Section, data: FieldMap, n: nat, x: Errors)
    requires Position(s, Email) == n < Count(s) && After(s, data, n, x)
    ensures After(s, data, n + 1, SetIf(x, BadEmail(data), Email, InvalidEmailFormat))
  {
    AfterNext(s, data, n, Email, x, SetIf(x, BadEmail(data), Email, InvalidEmailFormat));
  }

  /** The same for the two telephone checks together: the "required" message, when
      written at all, is always overwritten by the invalid-number one. */
  lemma CheckTelephone(s: Section, data: FieldMap, n: nat, x: Errors)
    requires Position(s, Telephone) == n < Count(s) && After(s, data, n, x)
    ensures After(s, data, n + 1, SetIf(SetIf(x, Missing(data, Telephone), Telephone, PhoneNumberRequired),
                                        BadTelephone(data), Telephone, InvalidPhoneNumber))
  {
    var y := SetIf(SetIf(x, Missing(data, Telephone), Telephone, PhoneNumberRequired),
                   BadTelephone(data), Telephone, InvalidPhoneNumber);
    if Missing(data, Telephone) {
      MissingTelephoneIsBad(data);
    }
    AfterNext(s, data, n, Telephone, x, y);
  }

  /** A change event of an input or textarea: its id, value, type and checked flag. */
  datatype InputEvent = InputEvent(id: Field, value: string, isCheckbox: bool, checked: bool)

  /** type === "checkbox" ? checked : value */
  function EventValue(e: InputEvent): Value {
    if e.isCheckbox then Flag(e.checked) else Text(e.value)
  }

  /** One edit of a form: a change event of an input, checkbox or radio button, which
      handleChange stores under the element's id; a choice in a select, which
      handleSelectChange stores under the id it is given; or a file chooser of the
      wizard's document step, which stores the first chosen file, or null when none is. */
  datatype Edit =
    | Change(event: InputEvent)
    | Select(id: Field, value: string)
    | ChooseFile(input: Field, file: Option<File>)

  /** The key an edit writes. */
  function EditId(ed: Edit): Field {
    match ed
    case Change(e) => e.id
    case Select(id, _) => id
    case ChooseFile(input, _) => input
  }

  /** The value an edit stores. */
  function EditValue(ed: Edit): Value {
    match ed
    case Change(e) => EventValue(e)
    case Select(_, v) => Text(v)
    case ChooseFile(_, f) => if f.Some? then Upload(f.value) else Null
  }

  /** Whether the handler also clears the edited key's error: every handler does,
      except the file handler when no file was chosen. */
  predicate ClearsError(ed: Edit) {
    !(ed.ChooseFile? && ed.file.None?)
  }

  /** The form data after an edit: the edited key holds the new value, every other key
      is left alone. */
  function Apply(data: FieldMap, ed: Edit): (r: FieldMap)
    ensures Lookup(r, EditId(ed)) == EditValue(ed)
    ensures forall k | k != EditId(ed) :: Lookup(r, k) == Lookup(data, k)
  {
    data[EditId(ed) := EditValue(ed)]
  }

  /** The form data after a sequence of edits, the first applied first. */
  function Replay(data: FieldMap, edits: seq<Edit>): FieldMap
    decreases |edits|
  {
    if |edits| == 0 then data else Replay(Apply(data, edits[0]), edits[1..])
  }

  /** A key that no edit writes keeps its value. */
  lemma {:induction false} ReplayKeeps(data: FieldMap, edits: seq<Edit>, k: Field)
    requires forall i | 0 <= i < |edits| :: EditId(edits[i]) != k
    ensures Lookup(Replay(data, edits), k) == Lookup(data, k)
    decreases |edits|
  {
    if |edits| > 0 {
      ReplayKeeps(Apply(data, edits[0]), edits[1..], k);
    }
  }
}
